# Crucible: a verified model of its migration, request and SQL cores

Crucible is a governed SQL workbench: users submit batches of SQL, reviewers
approve them, a queue worker executes them, and operators can move the
application's own control database to another server while it is live. This
project models the three parts of it whose correctness depends on more than one
function, and proves what they promise. `dafny verify dfyconfig.toml` checks
everything.

## The three cores

**A. The fenced control-database migration.** `MigrationProtocol.dfy` is a state
machine whose steps are single persisted writes (plan file, plan pointer, fence
file, configuration file, queue pause, one table of one database), process
restarts, crashes, application writes, scheduled mutations and queued jobs, in any
order. `MigrationSafety.dfy` has the invariant of careful runs,
`MigrationOwnership.dfy` that of all runs, `MigrationGuarantees.dfy` what
operators may rely on, `MigrationRecovery.dfy` the proof that the fence can always
be given back after a careful run, `MigrationOrphans.dfy` exactly when it can
after any run, `MigrationMoves.dfy` whole cutovers one after the other, and
`MigrationStranded.dfy` exactly which plans can still be moved on.
`MigrationManager.dfy` is the operator commands as a class: each method makes its
persisted writes one by one and is proved to be a run of the machine, so what
holds in every run holds at each of its writes. `TableOrder.dfy` sorts the tables,
`CopyEngine.dfy` copies them row by row with a snapshot of the disk after every
write, and `FenceDrain.dfy` is what happens at the lock and the queues while the
fence is engaged: every history there is proved to be a run of the protocol.

**B. The governed request lifecycle.** `RequestLifecycle.dfy` is a request's row,
its executions, the queue and its worker as a state machine over locked
transactions and unlocked reads. `RequestSafety.dfy` holds in every run,
`RequestRuns.dfy` in every run in which a failed job's handler has run before the
failure is retried, and `RetryChain.dfy` says of every such run whether its retry
repeats anything. `RequestWorkflow.dfy` is the operations and the job as a class
over that machine. `QuerySessions.dfy` is the second machine on the same row, for
query access.

**C. The SQL scanners.** `SqlErasure.dfy` is the lexer that erases literals and
comments, `SqlSegments.dfy` what it means, `SqlVerdict.dfy` the structural check
built on it, `MainStatement.dfy` the scan past a WITH clause, and
`IndexShape.dfy` the tokenizer and recogniser of CREATE INDEX, and
`IndexLexemes.dfy` which texts have which tokens. `ResultPaging.dfy` is the capped
read loop and the pages of its result.

## Where the code does less than one might expect

Each of these is a lemma, with the exact condition under which the code is right
or the run that shows it is not.

- `activate --finalize` and `rollback --finalize` check the configuration of their
  own process only. Each is safe if and only if every process has restarted
  (`MigrationGuarantees.FinalizeIsSafeExactly`,
  `MigrationGuarantees.FinalizeRollbackIsSafeExactly`).
- After one activation that was finalized too early a fence can be held for ever: a
  process still on the old configuration plans from there, and its activation dies
  between the status and the file (`MigrationOrphans.CarelessFinalizationOrphansTheFence`).
  After any run a held fence can be given back if and only if its plan is over, or the
  configuration in the file, or that of some process, is one the plan can go on from
  (`MigrationOrphans.FenceIsReleasableExactly`).
- `verify` checks who holds the fence, not that it was drained. A crash between
  writing the fence file and the end of the drain, in status Copied, leaves a
  mutation running behind the fence, or a job in a queue that is not paused or on
  its way there. Verifying and activating then is safe, whatever the processes do in
  between, if and only if nothing is running and the queues are paused, or empty
  with nobody pushing (`MigrationGuarantees.VerifyIsSafeExactly`); runs that lose a
  committed write either way exist (`MigrationGuarantees.UndrainedVerifyLosesAWrite`).
- Whoever queues a job looks at the fence and then pushes, and a push may arrive
  behind the fence. Queues found empty stay empty if and only if nobody is pushing
  (`FenceDrain.EmptyStaysExactly`); paused queues still keep every job from starting
  (`FenceDrain.PauseIsFinal`). After a crash behind the pause such a job makes every
  further drain time out, which gives the fence back
  (`MigrationRecovery.StrayJobBlocksTheDrain`, `MigrationRecovery.StrayJobIsReachable`).
- A plan made while another is active, and then left over when that other one is
  rolled back, can never be migrated or cancelled and blocks every new plan; a
  careful run gets there (`MigrationStranded.RollbackStrandsAPlan`). Under a free
  fence a current plan that is not verified can be brought to its end if and only if
  its source is the active database or the other plans can make it so, each going
  forward or back once (`MigrationStranded.MovableExactly`).
- A restarted copy empties its destination and keeps the old record. What a crash
  leaves then can be resumed from if and only if none of the recorded tables has
  rows in the source (`CopyEngines.Transfer.ResetIsResumableExactly`), and every
  restart passes through such a state (`CopyEngines.CopyEngine.RestartCopy`).
- The job's failure handler runs after its catch block has committed. A retry
  accepted in between is overwritten and leaves two jobs; a stale one can start an
  edited batch behind its first statement (`RequestRuns.LateHandlerSkipsAStatement`),
  and a write can be started twice (`RequestRuns.AWriteStartsTwice`). Accepting the
  retry is safe if and only if the handler has run (`RequestRuns.RetryIsSafeExactly`).
- A retry repeats what has succeeded after a job died behind a success
  (`RetryChain.DeathRepeatsWhatSucceeded`), also when an older failure is on record
  (`RetryChain.OldFailureIsResumedFrom`), and after a retry that was turned back was
  dispatched from its start (`RetryChain.RedispatchRepeatsARead`). These steps, and
  no others, are what `RetryChain.Harmless` excludes, and a retry repeats nothing if
  and only if none of them was taken since the batch was last written
  (`RetryChain.RetryConservesExactly`). For a request that writes it comes down to
  this: nothing had succeeded, or a failed execution is on record
  (`RetryChain.WriteRetryConservesExactly`).
- The session expiry command may turn a cancelled request into a completed one
  (`QuerySessions.ExpiryOverwritesCancellation`); Cancelled is final if and only if
  no expiry had loaded the request as running
  (`QuerySessions.CancellationIsFinalExactly`).
- A queued or running query can be given up from outside: its dispatch failed, its
  job failed, or the reconciler found it stale. They look at the row, and write
  later and without a lock. A cancellation is lost that way
  (`QuerySessions.DispatchFailureOverwritesCancellation`), and so is a success
  (`QuerySessions.InterruptionOverwritesSuccess`). A finished query keeps its status
  if and only if nobody who had read it as active is yet to write another outcome
  (`QuerySessions.FinishedIsFinalExactly`); it is over in any case
  (`QuerySessions.FinishedIsOver`).
- A header word that ends in a keyword is taken for the main statement
  (`MainStatement.WordEndingInAKeyword`).

## Assumptions

- A fingerprint is injective, and two tables have the same hash exactly when their
  rows have the same canonical form one by one; every contract about hashes says so
  row by row. A payload stands for its fingerprint and for the database it names. Payloads already carry their
  `version` key. Table names are compared character by character.
- Each persisted write is atomic. Locks hold for their critical section, each job
  is delivered at most once, and nobody but the migration writes to a migration
  destination.
- Web requests honour the fence: an application write happens only while it is
  free, or inside a scheduled mutation admitted, or a job whose queueing was, while
  it was free. A job behind the fence may be pushed, start, throw and go back to its
  queue; looking at the pause and taking a job are one step of a worker.
- In the protocol a process that is restarted inside a job may lose it, or put it
  back first. At the lock it always goes back. The recovery relies on neither: what
  runs comes to its end before its process is restarted.
- `MigrationSafety.Careful` names what operators must see to: every process is
  restarted before an activation or a rollback is finalized, and when a
  verification begins nothing is running and no job can start. Each is shown
  to be exactly what is needed to keep every write. What is stated of every run does
  not assume them.
- What the code asks of policies, preflights and clocks is a parameter of the step
  that asks it, and may differ at every step.

## Model

| member | source | states |
|---|---|---|
| MigrationSafety.StepKeepsInv | app/Services/ApplicationDatabaseMigrationManager.php:126-475 | every persisted write of every command, every crash, restart, application write, mutation and job keeps the protocol's invariant, as long as the two habits are kept |
| MigrationSafety.RunKeepsInv | app/Services/ApplicationDatabaseMigrationManager.php:117-475 | the invariant holds after every careful run, crashes between any two persisted writes included |
| MigrationSafety.JobBeginKeepsInv | app/Services/ApplicationDatabaseMigrationSafety.php:24-35 | a job that starts, behind the fence or not, disturbs no guarded plan |
| MigrationSafety.JobPushKeepsInv | app/Providers/AppServiceProvider.php:167-174 | nor does a job pushed behind the fence by somebody who had looked before |
| MigrationSafety.RestartKeepsInv | app/Support/ApplicationDatabaseBootstrap.php:24-57 | a process that reboots and reads the configuration file agrees with it, whatever state the plan is in |
| MigrationSafety.PlanFileKeepsInv | app/Services/ApplicationDatabaseMigrationManager.php:34-72 | a new plan starts with distinct databases and an empty record, and disturbs no other plan |
| MigrationSafety.StartCopyKeepsInv | app/Services/ApplicationDatabaseMigrationManager.php:174-189 | a copy that restarts from Copied or Failed gives up its claim to a true record; one that resumes keeps it |
| MigrationSafety.CopyRecordKeepsInv | app/Services/ApplicationDatabaseMigrationManager.php:190-199 | recording a table extends the recorded prefix of the order by one |
| MigrationSafety.CheckFinishKeepsInv | app/Services/ApplicationDatabaseMigrationManager.php:276-283 | a plan becomes Verified only with equal databases |
| MigrationSafety.UnfenceKeepsInv | app/Services/ApplicationDatabaseMigrationSafety.php:43-53 | the fence is given back and the queues resumed only by plans whose databases need no protection |
| MigrationSafety.WriteConfigurationKeepsInv | app/Services/ApplicationDatabaseMigrationManager.php:561-570 | the configuration file switches only between databases with the same contents |
| MigrationGuarantees.NoWriteIsLost | app/Services/ApplicationDatabaseMigrationManager.php:154-475 | after every careful run the database the configuration file names holds every committed application write |
| MigrationGuarantees.GuardedMeansEqual | app/Services/ApplicationDatabaseMigrationManager.php:242-475 | Verified and ActivationPendingRestart mean equal databases; RollbackPendingRestart means the source has everything written since activation |
| MigrationGuarantees.FreeFenceMeansSynced | app/Services/ApplicationDatabaseMigrationManager.php:295-351 | while the fence is free every process runs on the configuration in the file |
| MigrationOwnership.StepKeepsHeld | app/Services/ApplicationDatabaseMigrationManager.php:117-475 | every persisted write, crash, restart, write, mutation and job, careful or not, keeps the fence with its guarded plan and an unbroken copy's record true |
| MigrationOwnership.FenceOwnership | app/Services/ApplicationDatabaseMigrationSafety.php:24-53 | in every run a guarded plan is the one named in the fence file, so there is at most one, and no operation on another plan can release the fence or resume the queues |
| MigrationOwnership.GuardedFenceStays | app/Services/ApplicationDatabaseMigrationFence.php:152-167 | in every run no step takes the fence from a guarded plan |
| MigrationOwnership.UnbrokenCopyIsComplete | app/Services/ApplicationDatabaseMigrationManager.php:154-207 | in every run a copy begun from Planned and resumed under one uninterrupted fence records a prefix of the order, and ends with equal databases |
| MigrationGuarantees.FinalizeIsSafeExactly | app/Services/ApplicationDatabaseMigrationManager.php:338-349 | finalizing an activation keeps every later write if and only if all processes have restarted |
| MigrationGuarantees.LaggardLosesWrite | app/Services/ApplicationDatabaseMigrationManager.php:342-347 | a process still on the old configuration loses a write after the finalization |
| MigrationGuarantees.FinalizeRollbackIsSafeExactly | app/Services/ApplicationDatabaseMigrationManager.php:454-473 | finalizing a rollback keeps every later write if and only if all processes have restarted |
| MigrationGuarantees.VerifyIsSafeExactly | app/Services/ApplicationDatabaseMigrationManager.php:242-283 | verifying a copied plan that would pass, and activating it, keeps every write of any process in between if and only if nothing is running and the queues are paused, or empty with nobody pushing |
| MigrationGuarantees.LateMutationIsLost | app/Services/ApplicationDatabaseMigrationManager.php:252-283 | a write by a mutation behind an undrained fence is missing after the cutover |
| MigrationGuarantees.LateJobIsLost | app/Services/ApplicationDatabaseMigrationSafety.php:24-35 | so is one by a job that waits, or is being pushed, in a queue nobody has paused |
| MigrationGuarantees.UndrainedStateIsReachable | app/Services/ApplicationDatabaseMigrationSafety.php:24-41 | one failed drain and one crash of the operator's process reach a copied plan whose fence is held and not drained, with another process in a mutation or a job being pushed |
| MigrationGuarantees.UndrainedVerifyLosesAWrite | app/Services/ApplicationDatabaseMigrationManager.php:242-337 | from either of them a verification and an activation lose a committed write |
| MigrationOrphans.FenceIsReleasableExactly | app/Services/ApplicationDatabaseMigrationManager.php:126-475 | after every run, crash states included, a held fence can be given back if and only if its plan is over or the file or some process is on a configuration the plan can go on from; and then by steps of which none fails but a drain that has to |
| MigrationOrphans.ReleasableExactly | app/Services/ApplicationDatabaseMigrationManager.php:126-475 | the same of every state between two commands whose fence is held for a plan that is not cancelled |
| MigrationOrphans.OrphanedForever | app/Services/ApplicationDatabaseMigrationManager.php:126-475 | otherwise the fence is held in every later run |
| MigrationOrphans.CarelessFinalizationOrphansTheFence | app/Services/ApplicationDatabaseMigrationManager.php:308-349 | a run from the start that gets there: one finalization too early, and one activation cut short between the status and the file |
| MigrationRecovery.FenceIsNeverOrphaned | app/Services/ApplicationDatabaseMigrationManager.php:126-475 | from every state of every careful run with the fence held, crash states included, some finite list of commands and restarts, itself careful, releases it; none of them fails but a drain that has to |
| MigrationOrphans.CarefulIsReleasable | app/Services/ApplicationDatabaseMigrationManager.php:295-475 | after a careful run a held fence meets that condition |
| MigrationRecovery.StrayJobBlocksTheDrain | app/Services/ApplicationDatabaseMigrationSafety.php:102-122 | a job that waits in paused queues keeps every drain from passing until the queues are resumed |
| MigrationRecovery.StrayJobIsReachable | app/Providers/AppServiceProvider.php:167-174 | a careful run in which a push arrives behind the pause and the command then dies |
| MigrationRecovery.Migration | app/Services/ApplicationDatabaseMigrationManager.php:154-207 | with the queues empty a migration command under a free or its own fence can always be brought to Copied, and but from Copying to a true record and equal databases; no other plan is touched |
| MigrationRecovery.CopiedRecovers | app/Services/ApplicationDatabaseMigrationManager.php:154-351 | Copying and Copied lead on to Active on the destination with a free fence, unless a stray job makes the drain time out, which frees the fence |
| MigrationRecovery.RollbackRecovers | app/Services/ApplicationDatabaseMigrationManager.php:377-473 | a pending rollback can be finished whichever configuration the file names, and ends RolledBack on the source with a free fence |
| MigrationMoves.MoveForward | app/Services/ApplicationDatabaseMigrationManager.php:154-351 | from a free fence a plan that can be migrated and whose source is active can be migrated, verified and activated, and nothing else changes |
| MigrationMoves.MoveBack | app/Services/ApplicationDatabaseMigrationManager.php:362-473 | from a free fence an active plan can be rolled back and finalized, and nothing else changes |
| MigrationStranded.StrandedForever | app/Services/ApplicationDatabaseMigrationManager.php:126-207 | a current plan that waits to be migrated, with its source outside a set of databases that holds the active one and that no other plan leads out of, stays as it is and current, and no plan is made beside it, in every run |
| MigrationStranded.MovableExactly | app/Services/ApplicationDatabaseMigrationManager.php:126-475 | with the fence free a current plan that is planned, failed, copying or copied can be brought to its end if and only if the active database is its source or a path of other plans leads there; otherwise nothing touches it |
| MigrationStranded.RollbackStrandsAPlan | app/Services/ApplicationDatabaseMigrationManager.php:454-473 | a careful run from the start, in which nothing fails, leaves a plan whose source cannot be reached |
| MigrationManagers.TraceIsRun | app/Services/ApplicationDatabaseMigrationManager.php:117-475 | what the class has written is a run of the protocol from its initial state |
| MigrationManagers.HoldsAtEveryWrite | app/Services/ApplicationDatabaseMigrationManager.php:117-475 | at every write of every command, in careful runs, the active database holds every committed write |
| MigrationManagers.CutShort | app/Services/ApplicationDatabaseMigrationManager.php:117-475 | a command that dies behind any of its writes, in any run, leaves a fence that can be released exactly when it is releasable |
| MigrationManagers.CutShortWithCare | app/Services/ApplicationDatabaseMigrationManager.php:117-475 | in careful runs it always can be, without losing anything |
| MigrationManagers.MigrationManager.CreatePlan | app/Support/ApplicationDatabaseMigrationStore.php:20-55 | a plan is created exactly when the destination differs, is empty, and the current plan is over |
| MigrationManagers.MigrationManager.Cancel | app/Services/ApplicationDatabaseMigrationManager.php:126-152 | release, record, clear the pointer, in that order; each refusal leaves everything as it was |
| MigrationManagers.MigrationManager.Activate | app/Services/ApplicationDatabaseMigrationManager.php:308-336 | the status is persisted before the configuration file; repeating the command is harmless |
| MigrationManagers.MigrationManager.FinalizeActivate | app/Services/ApplicationDatabaseMigrationManager.php:302-349 | the plan becomes Active and the fence is given back, also when repeated |
| MigrationManagers.MigrationManager.Engage | app/Services/ApplicationDatabaseMigrationSafety.php:24-41 | fence, pause and last look in that order; a drain that fails before or behind the pause resumes the queues and gives the fence back; another plan's fence is refused |
| MigrationManagers.MigrationManager.ResetDestination | app/Services/ApplicationDatabaseCopyEngine.php:458-465 | every durable table of the destination is emptied, last table first |
| MigrationManagers.MigrationManager.CopyTables | app/Services/ApplicationDatabaseCopyEngine.php:53-61 | completes exactly when at no table still to be recorded an exception is thrown and each is stored with the rows its source has; recorded tables are skipped, the others then equal their source |
| MigrationManagers.MigrationManager.CheckTables | app/Services/ApplicationDatabaseCopyEngine.php:84-107 | passes exactly when every table agrees with its copy and its record |
| MigrationManagers.MigrationManager.Verify | app/Services/ApplicationDatabaseMigrationManager.php:242-283 | passes exactly when the plan may be verified, nothing throws, and every table has the same rows in both databases and in its record, if there is one; then it records Verified with the rows of every durable table, and otherwise leaves the plan as it was |
| MigrationManagers.MigrationManager.Migrate | app/Services/ApplicationDatabaseMigrationManager.php:154-230 | succeeds exactly when the plan may be migrated, the fence is free or its own, the drain passes, and every table not yet recorded is stored with the rows of the source, nothing being thrown; which of these fails is the error, and a failure leaves the status it found, or Failed, or Copying when even that could not be recorded, and a free fence |
| MigrationManagers.MigrationManager.RollBack | app/Services/ApplicationDatabaseMigrationManager.php:362-452 | from Active it succeeds exactly when the fence is free or its own, the drain passes, nothing throws, and every table is stored in the source with the rows of the destination; only then the configuration is switched; once pending it writes only the configuration |
| MigrationManagers.MigrationManager.FinalizeRollBack | app/Services/ApplicationDatabaseMigrationManager.php:454-473 | the plan becomes RolledBack and the fence is given back, also when repeated |
| TableOrder.OrderedTables | app/Services/ApplicationDatabaseCopyEngine.php:115-164 | fails exactly when the foreign keys between durable tables have a cycle; otherwise lists, once each and after all tables they reference, exactly the names without a dot that are not excluded and are in the listing, bare or behind a schema |
| TableOrder.Order | app/Services/ApplicationDatabaseCopyEngine.php:138-161 | the tables come by longest dependency chain and then by name |
| TableOrder.LessIsLexicographic | app/Services/ApplicationDatabaseCopyEngine.php:142-147 | names are compared character by character, a prefix first |
| TableOrder.StuckIsCyclic | app/Services/ApplicationDatabaseCopyEngine.php:148-150 | when no table is ready there is a cycle |
| TableOrder.ReferencedFirst | app/Services/ApplicationDatabaseCopyEngine.php:138-163 | a referenced table comes before the one that references it |
| TableOrder.BeforeIsStrict | app/Services/ApplicationDatabaseCopyEngine.php:138-163 | the order leaves no choice |
| CopyEngines.CopyEngine.Copy | app/Services/ApplicationDatabaseCopyEngine.php:34-68 | whatever persisted write it stops at can be resumed; it completes exactly when normalising the rows of every table a second time changes no hash, and then every table equals its source, row by row, and every recorded hash is that of its row |
| CopyEngines.CopyEngine.CopyTable | app/Services/ApplicationDatabaseCopyEngine.php:207-244 | the table holds the normalised source rows and no other table changes; fails exactly when the hash of some row differs; the record has one hash for each row, in order |
| CopyEngines.CopyEngine.InsertChunks | app/Services/ApplicationDatabaseCopyEngine.php:222-228 | chunks of 250 rows, the short one last, add up to the table |
| CopyEngines.CopyEngine.ResetDestinationTables | app/Services/ApplicationDatabaseCopyEngine.php:458-472 | all tables end empty, the ephemeral ones included, and every foreign key holds after every single delete |
| CopyEngines.CopyEngine.PrepareDestination | app/Services/ApplicationDatabaseCopyEngine.php:169-204 | a first copy needs a destination without tables; a fresh schema is seeded once |
| CopyEngines.CopyEngine.RestartCopy | app/Services/ApplicationDatabaseCopyEngine.php:44-63 | a restarted copy completes like a first one, but passes through a disk with empty tables and the old record, and extends that record instead of replacing it; what it leaves is equal to its source row by row |
| CopyEngines.CopyEngine.Verify | app/Services/ApplicationDatabaseCopyEngine.php:76-112 | passes exactly when both sides of every table have as many rows and the same hash at every index, and so has its record, if there is one; otherwise names the first table that does not, and how |
| CopyEngines.Transfer.PartwayReferences | app/Services/ApplicationDatabaseCopyEngine.php:53-61 | with a referentially closed source, every state on the way has all its cross-table references |
| CopyEngines.Transfer.NothingPointsAtTheNext | app/Services/ApplicationDatabaseCopyEngine.php:211-213 | clearing a half-copied table can reach no verified table through a foreign key |
| CopyEngines.NothingPointsAtTheLast | app/Services/ApplicationDatabaseCopyEngine.php:463-465 | emptying tables in reverse order, no row points at the table being emptied |
| CopyEngines.DeclaredReferencesGoBack | app/Services/ApplicationDatabaseCopyEngine.php:115-164 | in the sorted order, rows that keep to the declared foreign keys reference earlier tables only |
| CopyEngines.Transfer.RecordedNext | app/Services/ApplicationDatabaseMigrationManager.php:190-195 | recording the table just copied keeps the record a prefix of the order equal to the source |
| CopyEngines.Transfer.CompletedCopyVerifies | app/Services/ApplicationDatabaseCopyEngine.php:84-107 | a completed copy passes its verification |
| CopyEngines.Transfer.StableNormalizationIsFaithful | app/Services/ApplicationDatabaseCopyEngine.php:336-389 | if normalising twice changes nothing that is hashed, no copy fails its verification |
| CopyEngines.Transfer.ResetIsResumableExactly | app/Services/ApplicationDatabaseMigrationManager.php:175-199 | after a reset the old record can be resumed from if and only if it records a prefix of the order and none of its tables has rows in the source |
| FenceDrain.DrainIsFinal | app/Services/ApplicationDatabaseMigrationFence.php:10-57 | once a wait has returned, no mutation runs and none starts until the fence is released, for any number of mutators |
| FenceDrain.DrainedMeansNobodyInside | app/Services/ApplicationDatabaseMigrationFence.php:10-57 | after any history with a returned wait nobody is inside, and queues are paused only then |
| FenceDrain.WaitFailsWhileAnyoneHoldsTheLock | app/Services/ApplicationDatabaseMigrationFence.php:43-47 | the exclusive lock is had exactly when no mutator holds the shared one |
| FenceDrain.HistoriesRefine | app/Services/ApplicationDatabaseMigrationSafety.php:24-53 | every history of mutators, pushers, workers and operators at the lock and the queues, with deaths, time-outs and releases, is a run of the protocol, which is right about the fence, the queues and who is inside |
| FenceDrain.NothingLostAtTheLock | app/Services/ApplicationDatabaseMigrationSafety.php:24-53 | what is proved of careful runs of the protocol holds after every such history |
| FenceDrain.PauseIsFinal | app/Services/ApplicationDatabaseMigrationSafety.php:32-35 | once the queues are paused and no job runs, none runs until they are resumed, whatever is still pushed |
| FenceDrain.EmptyStaysExactly | app/Providers/AppServiceProvider.php:167-174 | queues found empty behind the fence stay empty in every history without a release if and only if nobody is pushing |
| FenceDrain.DrainIsEnabled | app/Services/ApplicationDatabaseMigrationSafety.php:28-34 | when the last look finds the queues empty the protocol's drain is enabled: nothing runs and nothing waits |
| FenceDrain.MaintenanceFence.Engage | app/Services/ApplicationDatabaseMigrationFence.php:111-150 | a fence another plan holds is refused, one's own is kept |
| FenceDrain.MaintenanceFence.WaitForScheduledMutations | app/Services/ApplicationDatabaseMigrationFence.php:36-57 | returns at the first poll that finds the lock free, and throws when no poll before the deadline does |
| FenceDrain.MaintenanceFence.WaitUntilQueuesAreEmpty | app/Services/ApplicationDatabaseMigrationSafety.php:102-115 | returns at the first poll that finds no job waiting or running, and throws when no poll before the deadline does |
| FenceDrain.MaintenanceFence.PauseAndLookAgain | app/Services/ApplicationDatabaseMigrationSafety.php:31-34 | passes exactly when the second looks find no active access and empty queues |
| FenceDrain.MaintenanceFence.EngageAndDrain | app/Services/ApplicationDatabaseMigrationSafety.php:24-41 | returns exactly when the fence is free or its own, both looks find no active access, some poll finds the lock free, some poll behind it finds the queues empty, and they still are behind the pause; then nothing runs or waits; otherwise the fence is free and the queues are resumed, or another plan's fence was left alone |
| FenceDrain.MaintenanceFence.Release | app/Services/ApplicationDatabaseMigrationSafety.php:43-53 | resumes the queues and removes the fence; another plan's fence is refused, a free one left alone |
| RequestSafety.ExecutedIsApproved | app/Services/QueryRequestWorkflow.php:265-780 | whatever executes under a policy that requires approval is a statement of a revision somebody other than the requester approved, or wrote as an admin |
| RequestSafety.StepKeepsInv | app/Jobs/ExecuteQueryRequest.php:48-371 | every transaction and worker step keeps approvals, claims and executions tied to revisions |
| RequestSafety.ClaimedExactlyWhen | app/Jobs/ExecuteQueryRequest.php:107-155 | a batch is claimed exactly when it is runnable, its requester enabled, and approval not required or given by somebody else |
| RequestSafety.DecideKeepsInv | app/Services/QueryRequestWorkflow.php:567-640 | a review approves the revision it names and no other |
| RequestSafety.RewrittenKeepsInv | app/Services/QueryRequestWorkflow.php:359-388 | an edit starts a revision with an approval by its editor or none |
| RequestSafety.CancellationIsFinal | app/Jobs/ExecuteQueryRequest.php:107-391 | nothing overwrites Cancelled, no batch is claimed after it, and at most the one statement already cleared still starts |
| RequestSafety.OneStatementMayStillStart | app/Jobs/ExecuteQueryRequest.php:211-227 | that one statement does start when the cancellation comes after the worker's look |
| RequestRuns.WritesStartAtMostOnce | app/Jobs/ExecuteQueryRequest.php:63-232 | in every prompt run only the last claim can hold a write, and no write statement starts twice |
| RequestRuns.ResumeSkipsNothing | app/Services/QueryRequestWorkflow.php:990-1000 | in every prompt run, whatever a claim leaves out of its revision has a succeeded execution, edits in between included, and the rest is in the claim |
| RequestRuns.CreatedRequestsAreSafe | app/Services/QueryRequestWorkflow.php:128-190 | all of it holds of every prompt run from the creation of any request or draft, and whatever executes under approval was approved or written by somebody else |
| RequestRuns.RetryIsSafeExactly | app/Services/QueryRequestWorkflow.php:856-921 | every run after an accepted retry of a failed read keeps both guarantees if and only if the failure handler had run |
| RequestRuns.StepKeepsQueueInv | app/Jobs/ExecuteQueryRequest.php:39-46 | at most one job of a request is queued, running or about to report its failure |
| RequestRuns.RetrySkipsNothing | app/Services/QueryRequestWorkflow.php:990-1000 | before the position a retry resumes from, every statement has succeeded |
| RequestRuns.FromIsSuffix | app/Jobs/ExecuteQueryRequest.php:185-194 | the worker's filter takes a suffix of the batch |
| RequestRuns.RetryRequestBegins | app/Services/QueryRequestWorkflow.php:1002-1179 | a linked retry is a fresh request whose kind covers its statements |
| RequestRuns.LateHandlerLeavesTwoJobs | app/Jobs/ExecuteQueryRequest.php:373-399 | a failure handler that runs after a retry overwrites it, and a second retry leaves two jobs |
| RequestRuns.LateHandlerSkipsAStatement | app/Jobs/ExecuteQueryRequest.php:373-399 | after a failure at any later position, the second job then starts an edited batch behind its first statement |
| RequestRuns.LateHandlerStartsAWriteTwice | app/Jobs/ExecuteQueryRequest.php:373-399 | after any failure, the two jobs can start the same write of an edited batch, one after the other |
| RequestRuns.AWriteStartsTwice | app/Jobs/ExecuteQueryRequest.php:373-399 | a run from the creation of two reads that does so |
| RequestRuns.FailureIsReached | app/Jobs/ExecuteQueryRequest.php:260-320 | any two reads of which the second fails reach the state this starts from |
| RetryChain.RetriesConserveTheBatch | app/Services/QueryRequestWorkflow.php:856-1153 | along any chain of retries, what succeeded, in order, followed by what is left, is the original batch if and only if no request of the chain took a harmful step |
| RetryChain.LinkConserves | app/Services/QueryRequestWorkflow.php:1002-1179 | a request hands on at least what it has not done, and exactly that if and only if it took no harmful step |
| RetryChain.RetryConservesExactly | app/Services/QueryRequestWorkflow.php:990-1179 | the retry of a failed request repeats nothing if and only if every step since the batch was last written was harmless; equally, if and only if it resumes right behind as many statements as there are succeeded executions |
| RetryChain.WriteRetryConservesExactly | app/Services/QueryRequestWorkflow.php:990-1179 | the retry of a failed request that writes repeats nothing if and only if nothing had succeeded or a failed execution of a present statement is on record |
| RetryChain.RetryRequestTexts | app/Services/QueryRequestWorkflow.php:1136-1154 | a linked request is the batch from the position resumed from, renumbered from 1 |
| RetryChain.StepStays | app/Jobs/ExecuteQueryRequest.php:185-371 | a harmless step keeps what has succeeded a prefix of the batch with every resumption right behind it; a harmful one makes a retry repeat something, and nothing but an edit mends that |
| RetryChain.DeathRepeatsWhatSucceeded | app/Jobs/ExecuteQueryRequest.php:373-399 | a run from creation in which the first of two statements succeeds, the job dies in the second, and the linked retry runs both |
| RetryChain.OldFailureIsResumedFrom | app/Services/QueryRequestWorkflow.php:990-1000 | a run from creation in which a failed execution is on record and the retry repeats a statement all the same |
| RetryChain.RedispatchRepeatsARead | app/Services/QueryRequestWorkflow.php:743-770 | a run from creation in which a retry is turned back, dispatched from its start, and repeats a read |
| RequestWorkflow.QueryRequest.constructor | app/Services/QueryRequestWorkflow.php:128-190 | a created request is pending, or approved by its requester, and holds the batch in its order, numbered from 1; it is a read exactly when all its statements are |
| RequestWorkflow.QueryRequest.Update | app/Services/QueryRequestWorkflow.php:265-434 | an edit is accepted exactly from an editable row by its requester or an admin; it starts the next revision with exactly the statements given, in their order, numbered from 1, undispatched, approved by its editor or pending; it is a read exactly when all statements are |
| RequestWorkflow.QueryRequest.UpdateDraft | app/Services/QueryRequestWorkflow.php:439-535 | only drafts are saved as drafts: the statements given, in their order, all counted as writes, and no approval |
| RequestWorkflow.QueryRequest.Review | app/Services/QueryRequestWorkflow.php:567-640 | a decision needs a pending request, somebody else, and the revision the reviewer saw; it is recorded with that revision and changes status and approval alone |
| RequestWorkflow.QueryRequest.WithdrawFromReview | app/Services/QueryRequestWorkflow.php:648-693 | a pending request goes back to draft as a new revision with the same statements and no approval |
| RequestWorkflow.QueryRequest.Dispatch | app/Services/QueryRequestWorkflow.php:695-780 | a job is queued exactly for an approved, undispatched, unblocked request with a fresh enough approval; a blocked one stays approved and a stale one goes back to review as a new revision |
| RequestWorkflow.QueryRequest.Cancel | app/Services/QueryRequestWorkflow.php:785-836 | unfinished requests become Cancelled, finished ones are refused |
| RequestWorkflow.QueryRequest.Retry | app/Services/QueryRequestWorkflow.php:856-921 | a failed read with a fresh enough approval resumes in place, from the statement that failed last or else from the first; anything else gets a linked request with what is left from there, in order and renumbered, and the failed one is left as it is |
| RequestWorkflow.QueryRequest.ReturnBlocked | app/Jobs/ExecuteQueryRequest.php:71-104 | a blocked preflight returns the request undispatched |
| RequestWorkflow.QueryRequest.Claim | app/Jobs/ExecuteQueryRequest.php:107-155 | the claiming transaction, with its four outcomes; what it claims is the statements from the position resumed from, in order, or the request's own SQL when none is left |
| RequestWorkflow.QueryRequest.ExecuteBatch | app/Jobs/ExecuteQueryRequest.php:185-371 | what ran is a prefix of the claim, each statement once and in order; the first failure or cancellation ends it and the status says which |
| RequestWorkflow.QueryRequest.HandleFailure | app/Jobs/ExecuteQueryRequest.php:373-399 | only requests that are not over become Failed |
| QuerySessions.SessionGuarantees | app/Services/QuerySessionWorkflow.php:45-226 | a request has at most one session, usable only while the request is running, and no session has two active queries |
| QuerySessions.SessionIsForLife | app/Services/QuerySessionWorkflow.php:128-226 | that session is the only one in the request's life; its end is never taken back |
| QuerySessions.FinishedIsOver | app/Services/QuerySessionWorkflow.php:369-616 | a finished query is never active again, in any run |
| QuerySessions.FinishedIsFinalExactly | app/Services/QuerySessionWorkflow.php:573-742 | a finished query keeps its status in every run if and only if nobody who read it as active is yet to write another outcome |
| QuerySessions.DispatchFailureOverwritesCancellation | app/Services/QuerySessionWorkflow.php:603-616 | a run from creation in which a cancellation is overwritten by a failed dispatch |
| QuerySessions.InterruptionOverwritesSuccess | app/Console/Commands/ReconcileBrowserQueryExecutions.php:23-53 | a run from creation in which a success is overwritten by the reconciler |
| QuerySessions.CancelledIsNeverSent | app/Services/QuerySessionWorkflow.php:414-425 | a query cancelled before its worker's last look never reaches the database |
| QuerySessions.CancelledWhileQueued | app/Services/QuerySessionWorkflow.php:509-545 | a query cancelled while queued is over and never sent, and stays cancelled in every run if and only if nobody who had read it as queued is yet to give it up |
| QuerySessions.CancellationIsFinalExactly | app/Services/QueryRequestWorkflow.php:785-836 | a cancelled access request stays cancelled in every run if and only if no expiry had loaded it as running |
| QuerySessions.ExpiryOverwritesCancellation | app/Console/Commands/ExpireQuerySessions.php:31-52 | if it had, the late write makes the request completed |
| QuerySessions.QuerySessionWorkflow.Start | app/Services/QuerySessionWorkflow.php:128-226 | a session starts exactly for an approved, unused request whose approval is fresh enough; a stale one goes back to review, any other is left alone |
| QuerySessions.QuerySessionWorkflow.Queue | app/Services/QuerySessionWorkflow.php:45-122 | a query is queued exactly when the session has no active one |
| QuerySessions.QuerySessionWorkflow.End | app/Services/QuerySessionWorkflow.php:564-649 | a session that has not ended does, a running request completes, its queued queries are cancelled and its running ones are being cancelled; no other query changes |
| QuerySessions.QuerySessionWorkflow.ExecuteQueued | app/Services/QuerySessionWorkflow.php:369-507 | the statement is sent exactly when the query was queued, connected and not cancelled first; a cancellation decides the outcome |
| QuerySessions.QuerySessionWorkflow.MarkDispatchFailed | app/Services/QuerySessionWorkflow.php:603-616 | a query seen as queued ends up Failed whatever its worker and its user do before the write; any other is left alone |
| QuerySessions.QuerySessionWorkflow.MarkInterrupted | app/Services/QuerySessionWorkflow.php:573-601 | a query seen as active ends up with the outcome decided then; a finished one is left alone |
| SqlErasure.ExecutableSql | app/Services/QueryGuard.php:276-395 | the scanning loop computes the erasure, or rejects hints and executable comments |
| SqlErasure.ErasureIsIdempotent | app/Services/QueryGuard.php:276-395 | erasing what was erased changes nothing, for every text |
| SqlErasure.ErasedIsCode | app/Services/QueryGuard.php:276-395 | nothing in the output can be taken for a literal or a comment |
| SqlSegments.ErasureIsSegmentwise | app/Services/QueryGuard.php:276-395 | the erasure of a text is the erasure of its code, literals and comments one by one |
| SqlSegments.EveryTextIsSegments | app/Services/QueryGuard.php:276-395 | every text that is not rejected is some such list |
| SqlSegments.RejectedExactly | app/Services/QueryGuard.php:276-395 | a text is rejected exactly when it is no such list, that is when it has an executable comment or a hint outside literals |
| SqlSegments.DollarQuoteErases | app/Services/QueryGuard.php:383-391 | for every name that is empty or an ASCII identifier, and every body in which the tag does not begin, a dollar literal behind code becomes one space and what follows is erased on its own |
| SqlSegments.LoneDollarIsKept | app/Services/QueryGuard.php:383-394 | a dollar that begins no tag is kept |
| SqlVerdict.StripTrailingTerminator | app/Services/QueryGuard.php:247-256 | the loop removes exactly the blanks and semicolons at the end |
| SqlVerdict.NormalizeIs | app/Services/QueryGuard.php:18-21 | line ends become newlines, and exactly the blanks at both ends go |
| SqlVerdict.ValidateStructuralSafety | app/Services/QueryGuard.php:77-122 | which texts are empty, rejected, several statements or accepted, in terms of their characters and their erasure |
| SqlVerdict.LiteralsHaveNoSay | app/Services/QueryGuard.php:77-180 | for every two texts whose code is the same, the verdict, and the text families are read off, do not depend on what stands inside literals and ordinary comments |
| SqlVerdict.AcceptedIsOneStatement | app/Services/QueryGuard.php:87-93 | in accepted SQL every semicolon left stands inside a literal or a comment |
| SqlVerdict.StripRightRenders | app/Services/QueryGuard.php:247-256 | stripping a text strips its last segments and leaves the others whole |
| MainStatement.TopLevelExecutableSql | app/Services/QueryGuard.php:204-240 | a text that begins with the word WITH becomes its suffix from the first main keyword that stands as a word outside all parentheses; any other text, or one without such a keyword, is returned as it is |
| MainStatement.TopLevelIs | app/Services/QueryGuard.php:204-240 | the same of the scan, which the loop with its clamped depth computes |
| MainStatement.SeekFindsFirst | app/Services/QueryGuard.php:214-237 | the scan finds the first keyword outside all parentheses, and nothing exactly when there is none |
| MainStatement.MainStatementIsFound | app/Services/QueryGuard.php:204-240 | for any common table expressions with balanced bodies the result is the suffix from the main keyword on |
| MainStatement.WordEndingInAKeyword | app/Services/QueryGuard.php:234-236 | a header word that ends in a keyword is taken for it |
| IndexShape.Tokens | app/Services/SqlPolicyStatementAnalyzer.php:119-244 | unterminated and unbalanced text has no tokens, any other text has all of its |
| IndexShape.BalancedAlwaysCloses | app/Services/SqlPolicyStatementAnalyzer.php:276-293 | balance closes every opening parenthesis, so the check of the column list cannot fail |
| IndexShape.HasClosingParenthesis | app/Services/SqlPolicyStatementAnalyzer.php:276-293 | the loop finds whether the depth returns to zero |
| IndexShape.ConsumeQualifiedIdentifier | app/Services/SqlPolicyStatementAnalyzer.php:254-271 | reads a name and all dotted names behind it, or fails |
| IndexShape.RecognisesTheGrammar | app/Services/SqlPolicyStatementAnalyzer.php:27-114 | the recogniser accepts exactly the driver's CREATE INDEX grammar, and the signature depends on driver, modifier and CONCURRENTLY alone |
| IndexLexemes.LexemesAreRead | app/Services/SqlPolicyStatementAnalyzer.php:119-244 | any list of blanks, comments, literals, quoted and bare names, numbers and signs has their tokens: names in upper case, literals and quoted names masked, blanks and comments none |
| IndexLexemes.EveryTextIsLexemes | app/Services/SqlPolicyStatementAnalyzer.php:119-244 | every text whose literals and comments end is some such list |
| IndexLexemes.TokensExactly | app/Services/SqlPolicyStatementAnalyzer.php:119-244 | a text has tokens exactly when it is one |
| IndexLexemes.NamesAreIdentifiers | app/Services/SqlPolicyStatementAnalyzer.php:246-249 | a token is read as a name exactly when it was written as a bare name or in double quotes or backticks |
| IndexLexemes.BalancedIsEven | app/Services/SqlPolicyStatementAnalyzer.php:224-243 | the running depth accepts exactly the tokens with no closing parenthesis too early and as many as opening ones |
| IndexLexemes.StatementShape | app/Services/SqlPolicyStatementAnalyzer.php:27-114 | from the SQL text: it accepts exactly the texts that, trimmed and without semicolons at the end, are some writing of a shape of the driver's grammar with all parentheses closed, in any letter case and with blanks and comments anywhere between its words; and names that shape |
| ResultPaging.ReadCapped | app/Services/DatabaseQueryExecutor.php:158-196 | the longest prefix within 5000 rows and 26,214,400 bytes is kept, and truncation is flagged exactly when that is not all |
| ResultPaging.PagesAreTheResult | app/Services/QueryResultSnapshotStore.php:34-61 | pages 1 to the last concatenate to the stored rows |
| ResultPaging.BoundsMatchTheRows | app/Services/QueryResultSnapshotStore.php:43-60 | for every requested page the bounds shown are those of the rows shown |

## Left out

- Database drivers, TLS material, file encryption and the temporary-file rename: a persisted write is one atomic step.
- Plan events, `rollback_tables`, failure reports, audit logs and notifications: they record and do not decide. An exception from one of them after a job's last transaction is not modelled; one from the audit logger right behind a statement that ran records the statement as failed (app/Jobs/ExecuteQueryRequest.php:254-262), so that a retry runs it again although here it counts as not done.
- What the checks for active sessions and native leases find while the fence is engaged: a parameter of the drain. The four queues are one queue, and pausing or resuming them is one write.
- In the migration protocol one write fills a table with any rows; chunks, seeded rows of a fresh schema and normalisation are in the copy engine only, and so are the ephemeral tables that a reset also empties.
- Self-references within a table: the sort ignores them, and so does the copy engine's referential safety.
- MigrationSafety.RunKeepsInv: holds for careful runs; the conditions of care are not checked by the code, and each is shown to be exactly necessary.
- MigrationRecovery.FenceIsNeverOrphaned: is about careful runs, and false without care; every run is the subject of `MigrationOrphans.FenceIsReleasableExactly`. It allows one drain to fail, because a job that arrived behind the pause makes it time out.
- QuerySessions.FinishedIsOver: does not promise the status a query finished with, because writers without a lock may still change it; exactly when they do not is `QuerySessions.FinishedIsFinalExactly`.
- RequestRuns.WritesStartAtMostOnce: holds for prompt runs; a retry that is not prompt is shown to be unsafe.
- RetryChain.RetriesConserveTheBatch: is about prompt runs, and about chains whose requests keep the SQL they were given; an edit starts a new batch, of which nothing has run.
- Keyword patterns and statement families beyond the four main keywords: one predicate on the erased text.
- Permissions, roles and groups: whether approval is required, whether the actor is an admin, and whether the preflight blocks are parameters of a step.
- The synchronous query execution of a session and native client sessions.
- Character classes are those of ASCII; the scanners work on characters instead of bytes.
- `mb_strtolower` of a signature and its hash: a signature is a value.

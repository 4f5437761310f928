# Verification of the durable calculation protocol

This project models, in Dafny 4.11, how the ShakeMap service keeps its durable
state truthful: the journaled replacement of one event's calculation tree, the
bounded scheduler that drives it, startup recovery, acceptance of requests, and
the gates that admit work. It proves properties of that model over every input,
every fault and every interleaving.

`dafny verify dfyconfig.toml` checks everything.

## How the model is built

- `Disk.dfy` is the service tree (queue entries, current records, native
  products, archive trees) and the atomic directory operations that change it,
  and a `Volume` on which they are issued and synced. A volume runs in one of
  three regimes: nothing fails; any call may raise before or after its effect or
  the process may be killed, with what it issued still unsynced; or the machine
  may stop. A power failure at any moment, then or later, leaves one of the
  survivors of that moment: any of the operations not yet synced may be missing,
  each on its own and whole.
- `Protocol.dfy` describes every state a replacement transaction can be found
  in, by what the journal says and where the trees are, and what each operation
  does to it. `Recalculation.dfy` is the code of the transaction as a class whose
  methods issue those operations; `Preparation.dfy` and `Reconciliation.dfy` are
  its entry points. Every method is proved against those states in all three
  regimes.
- `Course.dfy` is one process at work on a transaction as a machine of single
  operations and syncs; the class is proved to move only by its steps. A process
  that begins with nothing unsynced may raise, be killed and lose power at any
  moment, then or later, and leaves a transaction that can be recovered.
  `Progress.dfy` is the measure by which recovery only goes forward.
- `Mending.dfy` is what recovery does next with a calculation in whatever state it
  finds it, raising included. Where the protocol holds it does exactly what the
  class is proved to do; beyond it, it says which states recovery still brings to a
  good end however often a power failure stops it. `Exposure.dfy` and
  `Durability.dfy` use it to say exactly what an earlier process may have left
  unsynced for recovery to be safe, and what goes wrong otherwise.
- `Census.dfy` and `Invariants.dfy` state what the whole tree satisfies and why
  a step of one calculation cannot disturb another. `StartupRecovery.dfy` is the
  recovery loop over the whole tree.
- `Lifecycle.dfy` is the service as a machine: submissions, slots, reservations,
  workers, crashes and recovery in any order. Its steps are exactly what the
  contracts of the operations allow, and its theorems range over all runs.
  `Scheduler.dfy` is the scheduler as a class; every method is proved to move
  that machine by its own steps, and `Simulation.dfy` proves the same of
  submission, preparation, a worker's writes and the restart of the service.
- `Acceptance.dfy`, `Uploads.dfy` and `Snapshot.dfy` are acceptance;
  `Calculation.dfy` is the phase machine of one calculation and its evidence;
  `Finalization.dfy`, `Runner.dfy` and `Service.dfy` are the admission gates;
  `Status.dfy` and `Names.dfy` are records and names.

## Where the code does less than one might expect

- A finished current record whose journal was not removed blocks its event for
  ever, across restarts: recovery only looks at RUNNING records
  (`Lifecycle.BlockedForever`).
- `begin` closes every process exactly when no other live process still holds
  provisional readiness (`Finalization.BeginClosesExactlyWhen`); a service that
  booted on a marker still accepts work after another process has begun
  finalization again (`Finalization.ServicesBootOnMarkers`,
  `Finalization.ProvisionalReadinessOutlivesBegin`).
- Recovery builds on what it finds without syncing it. If the process that issued
  it was killed, or its sync raised, a power failure after that can take it back,
  and then not everything can be mended (`Durability.RecoveryIsSafeExactlyWhen`):
  - a tree staged, unless only the stage is unsynced and the preceding record is
    still to be staged: recovery disposes of the stage without it and raises
    (`Exposure.WithoutStagedProducts`, `Exposure.WithoutStagedService`);
  - a stage just made for a native tree: the tree goes with it, and recovery raises
    (`Exposure.WithoutStage`);
  - the archive, while its directory is unsynced: recovery promotes without it and
    raises for good (`Exposure.WithoutArchive`);
  - the promotion: recovery closes a record that is back in the queue, where it
    stays, failed (`Exposure.WithoutPromotion`);
  - the native tree: the record says it was published and preserved, and it is gone
    (`Exposure.WithoutPublication`);
  - the service or disposal checkpoint of a calculation that retains its trees:
    recovery writes a journal that it will not load (`Exposure.WithoutCheckpoint`);
  - the intent to remove the stage of preceding trees, or a ready candidate:
    recovery misses what it had removed, and raises
    (`Exposure.WithoutStageIntent`, `Exposure.WithoutCandidateIntent`).

  The loss of anything else is mended. No rename of preparation is safe
  (`Exposure.NoRenameIsSafe`), and noting the failure does not help
  (`Exposure.NotingDoesNotHelp`).
- An upload's backup link is not synced before the rename, so a power failure
  exposes the old bytes exactly while a rename over the target is not synced
  (`Uploads.Store.ReplaceExisting`); with the link synced first it would not
  (`Uploads.BackupSyncDecides`). A rollback whose sync raised reports the old file
  restored, and a power failure may still undo that
  (`Uploads.RestoredNameMayBeUndone`). Short of a power failure the old bytes
  always keep a name until the new one is synced.
- When a checkpoint cannot be written, the journal in memory is restored, so
  recording the recovery failure afterwards may take back a checkpoint that had
  reached the disk. Recovery still completes from there
  (`Recalculation.Transaction.Persist`, `Reconciliation.RecordRecoveryFailure`).
- A worker slot can be kept for good, but only when some read or write failed
  (`Scheduling.Scheduler.FinishCalculation`).

## Model

| member | source | states |
|---|---|---|
| Volumes.Volume.Rename | shakemap_service/recalculation.py:78-99 | a rename followed by a sync of both directories is all or nothing under every fault, and fully durable when it returns, provided nothing else was unsynced when it was issued |
| Volumes.Volume.Crash | shakemap_service/recalculation.py:74-99 | a kill keeps the disk and what is still unsynced; a power failure leaves one of the survivors of that moment, and nothing else |
| Volumes.SyncingLosesLess | shakemap_service/recalculation.py:96-99 | a sync takes possibilities of a power failure away and adds none |
| Disk.OperationsAreLocal | shakemap_service/recalculation.py:632-780 | an operation of one calculation changes nothing outside its own four names, never takes back an archive or a queue exit, and acts there as the local effect says |
| Disk.VariedByMany | shakemap_service/recalculation.py:692-767 | any number of partial builds or removals of one private tree change only that tree |
| Protocol.TreesAreConserved | shakemap_service/recalculation.py:632-689 | at every instant each preceding tree is in exactly one of its place, the stage and the journaled archive, unless overwriting and the removal intent is recorded |
| Protocol.RetainedTreesAreArchived | shakemap_service/recalculation.py:669-689 | without overwrite, a promoted or recovered calculation has both displaced trees unchanged and together in its archive |
| Protocol.JournalIsTruthful | shakemap_service/recalculation.py:111-172 | in every state of the protocol each completed checkpoint's effect holds on disk, and a half-removed stage or candidate has its intent recorded; `Durability.RecoveryIsSafeExactlyWhen` says when a power failure can leave more than recovery can mend |
| Protocol.WaitingSituations | shakemap_service/recalculation.py:1091-1160 | a journaled queue entry is removing its stage, archived, untouched, or staging, and nothing else, with what each implies |
| Protocol.CandidateFacts | shakemap_service/recalculation.py:1317-1366 | none of the contradictions that recovery checks for can occur in a promoted transaction |
| Protocol.FinalizingRequires | shakemap_service/recalculation.py:1482-1528 | the finalization checks hold exactly for a terminal record with all six checkpoints and no recovery failure, and then only the journal goes |
| Recalculation.Transaction.Persist | shakemap_service/recalculation.py:111-141 | the journal on disk is the old or the new one, the new one on success, and a failed write restores the one in memory |
| Recalculation.Transaction.NamedCheckpoint | shakemap_service/recalculation.py:144-157 | a checkpoint is appended once, atomically, or not at all |
| Recalculation.Transaction.NamedIntent | shakemap_service/recalculation.py:160-172 | an intent is recorded atomically before any removal it covers |
| Recalculation.Transaction.StagePreceding | shakemap_service/recalculation.py:632-666 | stops only in recoverable states and succeeds with both preceding trees staged and checkpointed in order |
| Recalculation.Transaction.StageTree | shakemap_service/recalculation.py:637-662 | a tree still in place is renamed and both directories synced before its checkpoint, having passed through the moment where the rename was not |
| Recalculation.Transaction.DisposePreceding | shakemap_service/recalculation.py:669-689 | archives the stage whole or removes it after its intent, and succeeds with disposal checkpointed |
| Recalculation.Transaction.PromoteRecord | shakemap_service/recalculation.py:692-712 | the record moves from queue to events atomically and is checkpointed there |
| Recalculation.Transaction.BuildCandidate | shakemap_service/recalculation.py:715-767 | the candidate has the manifested names and bytes and is durable before it is reported, and nothing else changes whatever fails |
| Recalculation.Transaction.CopyManifestedRequest | shakemap_service/recalculation.py:715-767 | checkpoints a candidate equal to the accepted request |
| Recalculation.Transaction.PublishNativeTree | shakemap_service/recalculation.py:770-780 | publishes exactly the accepted request as the native tree, and checkpoints it |
| Recalculation.Transaction.RecoverStaging | shakemap_service/recalculation.py:1091-1254 | from any reachable waiting state disposes of both preceding trees or stops in a reachable state; raises only for I/O faults |
| Recalculation.Transaction.RecoverPromotion | shakemap_service/recalculation.py:1257-1286 | promotes if needed and checkpoints it, keeping any published tree |
| Recalculation.Transaction.VerifyDisposition | shakemap_service/recalculation.py:1289-1314 | accepts exactly when no stage is left and the archive holds what the journal recorded |
| Recalculation.Transaction.RemovePrivateCandidate | shakemap_service/recalculation.py:1317-1366 | leaves no candidate, keeps a published tree, and reports whether there was one |
| Recalculation.Transaction.MarkFailed | shakemap_service/recalculation.py:1369-1395 | a RUNNING record becomes FAILED with the interruption recorded, and the text says after publication exactly when the native tree is there; service outcome and completion are set, everything else in the record is kept; a FAILED record stays, a SUCCESS one raises |
| Recalculation.Transaction.Finish | shakemap_service/recalculation.py:1421-1448 | completes recovery from any reachable state, or stops where the journal in memory would still describe a reachable state; the record is as it was, or failed as interrupted on the side of publication that the native tree shows, and otherwise unchanged |
| Preparation.Claim | shakemap_service/recalculation.py:520-600 | claims exactly the RUNNING entries with a valid manifest and no transaction state, and finds an unused archive name whenever one is needed and available |
| Preparation.FirstJournalOpens | shakemap_service/recalculation.py:571-600 | the first journal beside a claimed entry is loadable and opens a transaction in which nothing has moved |
| Preparation.NewTransaction | shakemap_service/recalculation.py:520-629 | either at most a warning was added or the first journal is on disk; the record is the accepted one, its warnings kept, with the one that names the missing preceding tree after them if it was not there; without I/O faults or a crash it succeeds for exactly the preparable entries |
| Preparation.WarningIsAdded | shakemap_service/recalculation.py:441-470 | preparation changes the record at most in its warnings: those it had are kept, and at most the one that names the missing preceding trees follows them, none when both are there or it was said before |
| Preparation.PrepareCalculation | shakemap_service/recalculation.py:783-806 | leaves at most a warning or a recoverable transaction under every fault, and begun with nothing unsynced so does a power failure at any later moment; success leaves the record RUNNING in place beside the published tree, all six checkpoints and any archive made; wherever the record is, it is the accepted one with its warnings kept and at most the missing preceding trees named after them; without faults it succeeds exactly when preparable |
| Reconciliation.TransactionsAreLocated | shakemap_service/recalculation.py:912-1077 | a transaction is found, in the right place, from every reachable state |
| Reconciliation.LocateTransaction | shakemap_service/recalculation.py:995-1077 | agrees with the located place in every case, including two journals or a mismatched identity |
| Reconciliation.ReconcileTransaction | shakemap_service/recalculation.py:1421-1448 | from every reachable state, after any crash or failed recovery, ends recovered or reachable again; without faults it ends recovered exactly unless the record is SUCCESS, and an error is noted in the journal; keeps the published tree and terminal records, and whatever happens the record is as it was or failed as interrupted after publication with that tree there, before publication without it, at the given instant and in nothing else changed; begun with nothing unsynced, a power failure at any later moment leaves it recoverable too, with a record that says what is so; begun over what one interrupted process left, unless that is harmful, it leaves what recovery can mend |
| Reconciliation.RecordRecoveryFailure | shakemap_service/recalculation.py:1406-1418 | the evidence is written into a journal that can still be recovered, and the error stays an error |
| Reconciliation.FinalizeTransaction | shakemap_service/recalculation.py:1482-1528 | removes only the journal and only under all its checks; without faults succeeds exactly then |
| Reconciliation.FailMatchingRunningRecord | shakemap_service/status.py:860-961 | classifies every record directory and fails exactly a matching RUNNING record with no journal |
| Reconciliation.RecoverStaleRunning | shakemap_service/recalculation.py:1451-1479 | a stale RUNNING record is failed in place, saying no journal was found, or its transaction recovered, saying whether it had published, and otherwise can be recovered again, also after a later power failure if nothing was unsynced when it began, and if what one interrupted process left was not harmful; never fails without a fault |
| Reconciliation.FailingInPlace | shakemap_service/status.py:920-961 | the write in place says that no journal was found and nothing was retried, completes the service outcome at the given instant, and changes nothing else |
| Course.AllowedKeeps | shakemap_service/recalculation.py:632-780 | whatever operation may come next, in preparation or recovery, leaves a state recovery knows, with the journal on disk or with the one in memory |
| Course.CourseIsSound | shakemap_service/recalculation.py:651-712 | a process that began with nothing unsynced may raise, be killed and lose power anywhere, then or later, also while it notes its failure: what is left is a transaction that can be recovered, whose record says what is so, and nothing else has changed |
| Recalculation.Transaction.PowerMayFail | shakemap_service/recalculation.py:1421-1448 | the same of everything the class has done so far, since all it does is a course of that machine |
| Recalculation.Transaction.NoteFailure | shakemap_service/recalculation.py:1406-1418 | the evidence is written into the journal in memory, or the disk is as it was |
| Mending.RecoveryDoesWhatIsAllowed | shakemap_service/recalculation.py:1091-1448 | in every state of the protocol the decision of the recovery code neither raises nor stops, and is exactly the operation the protocol allows, which is what the class is proved to issue |
| Mending.MendableMends | shakemap_service/recalculation.py:1091-1479 | from each mendable state, the protocol's and those where a checkpoint, a removal or the failure is ahead of the rest, recovery never raises and ends with the record failed and truthful and the trees where they belong, also if it is stopped after any operation and begun again |
| Mending.DoomedCannotMend | shakemap_service/recalculation.py:1421-1448 | what recovery raises on, or wrongly believes finished, in any number of its own steps cannot be mended |
| Durability.RecoveryIsSafeExactlyWhen | shakemap_service/recalculation.py:1091-1366 | from whatever one process may leave behind, killed or given up at any moment, a power failure at any moment of the next recovery leaves only what recovery can bring to a good end, if and only if what that process left unsynced is not harmful, which is told from the one operation it left |
| Exposure.HarmfulIsExposed | shakemap_service/recalculation.py:1091-1366 | each harmful operation comes with a run of recovery to a moment from which a power failure leaves a state that no recovery mends |
| Exposure.WithoutStagedProducts | shakemap_service/recalculation.py:1107-1150 | the stage is disposed of without the native tree, which is back in its place, and recovery raises |
| Exposure.WithoutStagedService | shakemap_service/recalculation.py:1107-1150 | and the same of the preceding record |
| Exposure.WithoutStage | shakemap_service/recalculation.py:1080-1231 | the native tree was moved into a stage that does not survive: it is in neither place, and recovery raises |
| Exposure.WithoutArchive | shakemap_service/recalculation.py:1289-1314 | the record is promoted with its stage and without its archive, and recovery raises after one checkpoint |
| Exposure.WithoutPromotion | shakemap_service/recalculation.py:1257-1260 | the record is back in the queue, failed and without a journal, its event has no current record, and recovery leaves it so |
| Exposure.WithoutCheckpoint | shakemap_service/recalculation.py:144-157 | recovery's first checkpoint puts the journal out of order, and no later recovery loads it |
| Exposure.WithoutStageIntent | shakemap_service/recalculation.py:1181-1252 | a staged tree is removed and its removal unrecorded, and recovery raises |
| Exposure.WithoutCandidateIntent | shakemap_service/recalculation.py:1345-1366 | a ready candidate is removed and its removal unrecorded, and recovery raises |
| Exposure.WithoutPublication | shakemap_service/recalculation.py:1317-1366 | recovery ends with a record that says the native tree was published, and no native tree |
| Exposure.NoRenameIsSafe | shakemap_service/recalculation.py:651-712 | preparation can be killed after each of its renames so that no recovery is safe |
| Exposure.NotingDoesNotHelp | shakemap_service/recalculation.py:1406-1418 | a rename whose sync raised stays harmful after the failure was noted |
| Exposure.LostArchiveStrands | shakemap_service/recalculation.py:1289-1301 | the archive rename can be lost after recovery promoted, and then the check made after promotion never passes, whatever journal is written |
| Progress.NextLowers | shakemap_service/recalculation.py:1091-1443 | every operation recovery issues lowers what is left to do |
| Progress.RecoveryOnlyProgresses | shakemap_service/recalculation.py:1421-1448 | a recovery stopped anywhere, power failures included, leaves no more to do than it found, and less once an operation of its own is there |
| Census.StepKeepsCoherence | shakemap_service/recalculation.py:632-806 | a step of one transaction leaves records, identities and the transactions of all other events valid |
| Census.RecordStepKeepsCoherence | shakemap_service/status.py:678-770 | rewriting an unfinished record without a journal disturbs no transaction |
| Census.OtherTransactionsUndisturbed | shakemap_service/recalculation.py:408-420 | transactions of different events, archive names included, cannot touch each other |
| StartupRecovery.ValidatedRecords | shakemap_service/startup_recovery.py:11-31 | returns every record once exactly when none is malformed and no sequence occurs twice |
| StartupRecovery.RunningRecords | shakemap_service/startup_recovery.py:34-41 | the RUNNING records and no others, in increasing sequence |
| StartupRecovery.RecoverInterruptedCalculations | shakemap_service/startup_recovery.py:34-68 | if it returns, nothing is RUNNING, exactly the formerly RUNNING calculations are FAILED and reported in increasing order, each with the reason that its journal calls for and the rest of its record kept; waiting records and the counter are unchanged; without faults it returns exactly for sound trees; after any fault, and a power failure after any fault if it began with nothing unsynced, it can be run again; all it does is a sequence of recoveries of single records |
| StartupRecovery.RecoveryIsLocal | shakemap_service/startup_recovery.py:43-53 | recovering one record leaves every other unfinished record as it was |
| StartupRecovery.FailedStaysFailed | shakemap_service/startup_recovery.py:43-68 | a recovered calculation stays FAILED, for the reason recorded, while the others are recovered |
| Invariants.TransactionStepKeepsInv | shakemap_service/recalculation.py:632-806 | a transaction's step keeps every whole-tree invariant and never changes an archive tree |
| Invariants.RecordStepKeepsInv | shakemap_service/scheduler.py:92-109 | starting, failing or annotating an entry keeps every invariant, given the gate that tick checks |
| Invariants.AcceptanceKeepsInv | shakemap_service/submission.py:888-959 | an accepted entry is new to every part of the tree and keeps every invariant |
| Invariants.PredecessorIsFinished | shakemap_service/scheduler.py:92-100 | what a claimed entry will displace is terminal, without a journal, and its native tree is its own |
| Invariants.BeginIsAStep | shakemap_service/recalculation.py:520-600 | opening a transaction on a claimed entry fits the invariants, whatever else is under way |
| Lifecycle.StepKeepsInv | shakemap_service/scheduler.py:72-312 | every step of the service keeps every invariant |
| Lifecycle.InvAlwaysHolds | shakemap_service/scheduler.py:72-312 | every state of every run satisfies the invariants |
| Lifecycle.RunningIsBounded | shakemap_service/scheduler.py:72-119 | while the service is up at most max_concurrent records are RUNNING, and never two of one event |
| Lifecycle.StartsAreInOrderOfAcceptance | shakemap_service/scheduler.py:77-117 | the sequences of one event start in strictly increasing order over whole runs, restarts and unreadable entries included |
| Lifecycle.OnlyFinishedWorkIsDisplaced | shakemap_service/public_views.py:681-706 | everything displaced is terminal and journal-free, every archive tree meets the archive view's demands, and no record is archived twice or archived and current |
| Lifecycle.PublishedSequencesIncrease | shakemap_service/submission.py:738-959 | of two acceptances in a run the later has the greater sequence, whatever happened between |
| Lifecycle.RetainedForever | shakemap_service/recalculation.py:669-689 | once a retaining transaction is over, its displaced trees are in its archive unchanged for the rest of the run |
| Lifecycle.RetentionIsHonoured | shakemap_service/recalculation.py:669-689 | over every run: whatever is in the way of a request accepted without overwrite when its calculation opens its transaction is in an archive, unchanged, from the moment that is over |
| Lifecycle.PreparedIsOpen | shakemap_service/recalculation.py:571-600 | preparation opens the transaction of exactly the trees that are there, and names an archive if and only if there are any and the request is not to overwrite them |
| Lifecycle.ArchiveAlwaysGrows | shakemap_service/recalculation.py:675-683 | no archive tree is ever changed or removed |
| Lifecycle.VerdictsAreFinal | shakemap_service/status.py:66-73 | a calculation that succeeded or failed keeps that verdict wherever its record goes |
| Lifecycle.TerminalRecordsAreFinal | shakemap_service/status.py:66-73 | every terminal record in the tree is such a verdict |
| Lifecycle.BlockedForever | shakemap_service/startup_recovery.py:36-39 | a terminal current record left with its journal stays, and nothing of its event ever starts again |
| Lifecycle.AcceptedBytesArePublished | shakemap_service/recalculation.py:715-780 | what preparation publishes is name for name and byte for byte what was snapshotted at acceptance |
| Lifecycle.RequestsAreImmutable | shakemap_service/submission.py:888-959 | a queue entry keeps its request, and a sequence that left the queue never comes back |
| Lifecycle.RecoveryIsAStep | shakemap_service/startup_recovery.py:43-53 | recovery of one record is a step of its transaction or fails a plain entry in place |
| Scheduling.Scheduler.constructor | shakemap_service/scheduler.py:30-51 | a scheduler over a tree without RUNNING records mirrors a machine that has just started |
| Scheduling.Scheduler.Tick | shakemap_service/scheduler.py:72-119 | moves only by machine steps; what it started was readable, waiting, below the barrier, the oldest of its event, unreserved and without a journal when the tick began, and is now RUNNING in its slot, handed to the executor and nothing else of its record changed; without faults it reports no error and, with a slot left, starts every such entry, or every one older than the last started; under faults every readable entry below the barrier was started, failed with a recorded error, reserved, in transaction, or behind an older entry of its event |
| Scheduling.Scheduler.Admit | shakemap_service/scheduler.py:102-117 | reserves an eligible entry and either starts it and hands it over, or gives slot and event back with the error recorded; without faults it starts it; it never drops another reservation |
| Scheduling.Scheduler.FinishCalculation | shakemap_service/scheduler.py:144-191 | moves only by machine steps; the record ends as reconciliation, or the failed or incomplete callback, calls for, with code and text, and is otherwise kept; either slot and event are given up and no error is recorded, or the event stays reserved and exactly one is; without faults slot and event are given up, unless finalization refuses the journal; a slot is kept only after an I/O fault |
| Scheduling.Scheduler.VerifyTerminal | shakemap_service/scheduler.py:251-263 | accepts exactly a terminal current record, unless the read fails |
| Scheduling.Scheduler.FinishWithoutCallback | shakemap_service/scheduler.py:193-208 | an entry that could not start is waiting, failed with the text of what was raised, or still in its slot, and everything else of its record is kept; exactly one error is recorded unless it was failed and given up |
| Scheduling.Scheduler.EnsureTerminal | shakemap_service/scheduler.py:210-249 | leaves a terminal record where it is, or fails a RUNNING one in place with the code and text for how the callback ended; an entry of the queue loses its native outcome, and nothing else changes |
| Scheduling.Scheduler.DropCapacityForTerminalCurrent | shakemap_service/scheduler.py:297-312 | frees the slot of a terminal current record and keeps its event reserved |
| Scheduling.Scheduler.Release | shakemap_service/scheduler.py:279-287 | frees the slot and, only if it is this calculation's, the reservation |
| Scheduling.Scheduler.ReadAuthoritativeRecord | shakemap_service/scheduler.py:327-342 | the queue entry before the current record, and an error for a record of another identity |
| Scheduling.Scheduler.RecordError | shakemap_service/scheduler.py:265-277 | the error list is the latest hundred of all errors recorded |
| Scheduling.DiscoverQueue | shakemap_service/queue.py:20-32 | every readable waiting entry once, oldest first |
| Scheduling.FirstMalformedSequence | shakemap_service/scheduler.py:315-324 | the least malformed sequence, or none |
| Scheduling.OldestOfEvent | shakemap_service/scheduler.py:82-90 | an entry whose event was not seen before is the oldest readable one of its event |
| Scheduling.ReconcilingIsAStep | shakemap_service/scheduler.py:151-166 | whatever reconciliation did for a slot was a step of that calculation's own transaction |
| Scheduling.BegunIsLocated | shakemap_service/recalculation.py:995-1077 | looking for the transaction of a calculation that has begun never raises |
| Simulation.Submit | shakemap_service/submission.py:888-959 | a submission is a step of the service machine: the acceptance of a new sequence for its event, an abandoned sequence, or nothing; without faults and with a readable counter it is the acceptance |
| Simulation.Prepare | shakemap_service/recalculation.py:783-806 | preparation of a calculation in its slot is a step of the machine under every fault: its transaction opens, or its entry is annotated, or nothing happens; without faults it publishes exactly when preparable |
| Simulation.WorkerWritesAreSteps | shakemap_service/status.py:823-857 | once the native tree is published, whatever valid update or allowed transition a worker writes over its own current record is a step of its transaction |
| Simulation.TrailIsSteps | shakemap_service/startup_recovery.py:43-53 | startup recovery, however far it came, is a run of the machine |
| Simulation.Restart | shakemap_service/main.py:152-170 | from whatever state a run of the service left when it stopped, a restart recovers by steps of the machine and then gives a scheduler that mirrors it; without faults it always succeeds; every calculation that was RUNNING has failed with its reason before any work is admitted, and nothing that waits has changed |
| Acceptance.QueueSequenceFromDisk | shakemap_service/submission.py:738-792 | the least sequence neither the counter nor a visible entry has reached; raises exactly for a malformed counter |
| Acceptance.PublishQueueEntry | shakemap_service/submission.py:888-959 | nothing, the counter alone, or counter and entry are durable, in that order, under every fault; the entry is what was asked for, field by field; success exactly when the counter is readable and the name free |
| Acceptance.SequencesAreNeverReused | shakemap_service/submission.py:738-830 | a publication uses a sequence above every earlier one and keeps the counter above them all |
| Acceptance.NewEntriesAreValid | shakemap_service/status.py:114-155 | an accepted entry is a valid waiting record of its own sequence with no transaction state |
| Acceptance.NewEntriesAreAsRequested | shakemap_service/submission.py:902-909 | overwrite, warnings, configuration, input mode, instant and files are the request's, the manifest names this event and sequence and the request's files, and nothing has been done about it |
| Uploads.Store.ReplaceExisting | shakemap_service/submission.py:462-536 | the target is never absent and holds the old or the whole new file after any fault; when only one error struck, the caller has the old file back, synced and with nothing left of the new one, or the new file synced and no backup to return to; short of power loss the old bytes keep a name until the new name is synced; at every moment until then a power failure can take their last name if and only if a rename over the target is issued and not synced; an unsynced new file retains the private tree |
| Uploads.Store.Rollback | shakemap_service/submission.py:418-459 | one attempt that restores the old file or retains the private tree, also when the rename is a no-op between two links of one file; if nothing more is raised it restores exactly, synced and cleaned up, unless the backup is gone; a restoration that is not retained is exposed exactly when its sync raised |
| Uploads.Store.ReplaceName | shakemap_service/submission.py:383-394 | rename() with its no-op between links to the same file, atomic under every fault |
| Uploads.Store.PublishNew | shakemap_service/submission.py:539-591 | an existing name is never clobbered and a new one is absent or whole after any fault; without faults it succeeds exactly for a free name, and a taken one only costs the private file; the private tree is retained only over a failed cleanup or the published file |
| Uploads.Store.PublishUploads | shakemap_service/submission.py:1056-1090 | after any fault every file the caller had is under its name, unchanged or replaced by the whole upload of that name; it fails only if an error struck, and then says so |
| Uploads.BackupSyncDecides | shakemap_service/submission.py:471-500 | between the rename and its sync the old bytes are exposed if and only if the private directory was not synced after the backup was linked |
| Uploads.RestoredNameMayBeUndone | shakemap_service/submission.py:438-459 | after a rollback whose directory sync raised and whose cleanup succeeded, a power failure may bring the new file back with the old one nameless |
| Snapshot.WriteAll | shakemap_service/recalculation.py:102-108 | short writes are continued until everything is written; a zero-byte write fails |
| Snapshot.CopyRegularFile | shakemap_service/submission.py:619-689 | the recorded size and digest describe exactly the bytes that were written, however they were delivered |
| Snapshot.SnapshotInputs | shakemap_service/submission.py:692-735 | the snapshot holds the delivered bytes of every name and the manifest records each of them |
| Snapshot.SnapshotsValidate | shakemap_service/recalculation.py:289-387 | an accepted snapshot always passes the validation made before it is used |
| Snapshot.ValidateManifest | shakemap_service/recalculation.py:289-387 | accepts exactly the requests that match their manifest in identity, names, sizes and digests |
| Snapshot.ValidateEntries | shakemap_service/recalculation.py:326-355 | accepts exactly the well-formed entry lists and returns their names |
| Snapshot.CopyManifested | shakemap_service/recalculation.py:715-767 | a completed copy has the manifested content even if the sources changed after validation; without faults it completes exactly when they still match |
| Snapshot.OneManifestOneTree | shakemap_service/recalculation.py:715-767 | two trees with one manifest are equal byte for byte, unless the hash collides on them |
| Calculation.Workspace.FinalizeSuccess | shakemap_service/calculation_finalization.py:167-206 | SUCCESS is written only for exit 0, passed validation, complete manifest, matching provenance and nonempty logs, and exactly then without faults |
| Calculation.Workspace.FinalizeFailure | shakemap_service/calculation_finalization.py:209-244 | FAILED with exactly the given failure, instant and linked evidence and the native outcome of the command that returned, exit code and signal each in its place, only over a matching RUNNING record; nothing else of the record changes |
| Calculation.Workspace.PublishManifest | shakemap_service/product_manifest.py:208-265 | complete only for an all-pass validation, and never over a record that is not RUNNING |
| Calculation.Workspace.PublishProvenance | shakemap_service/provenance.py:261-308 | never over a record that is not RUNNING |
| Calculation.Workspace.AppendLog | shakemap_service/calculation_log.py:99-148 | appends only for the matching RUNNING record |
| Calculation.Workspace.FinishFailed | shakemap_service/calculation.py:251-342 | fails with the given phase and code, the outcome of the command that returned, the instant of the failed provenance and the evidence that is beside it; on a terminal record every step is refused and nothing changes |
| Calculation.Workspace.Execute | shakemap_service/calculation.py:345-840 | one terminal write; SUCCESS implies all its evidence; a failure carries the outcome of the command that returned, the service outcome and the instant of its provenance, and links the evidence beside it; without file faults the outcome, phase and code are those its circumstances call for |
| Calculation.Workspace.RunPhases | shakemap_service/calculation.py:345-840 | ends in SUCCESS with its evidence, or with the record RUNNING and the reason; over the record as it was, only progress and what is known of the command may have changed; without file faults it stops in the phase and with the code its circumstances call for, the native outcome recorded exactly if the command returned, and logs each phase once |
| Calculation.Workspace.RecordRun | shakemap_service/calculation.py:537-600 | the start of the command, its output and its outcome are recorded, each as given, and nothing else of the record |
| Calculation.CodesAreNamed | shakemap_service/calculation.py:251-342 | the failure codes by the names that readers of a record see, and the phase each belongs to |
| Calculation.TerminalIsFrozen | shakemap_service/product_manifest.py:32-46 | in every history of operations nothing changes a terminal record or the evidence beside it |
| Calculation.SuccessIsEarned | shakemap_service/calculation_finalization.py:167-206 | in every history of operations a SUCCESS record has its exit, manifest, provenance and logs |
| Calculation.SuccessIsAccepted | shakemap_service/status.py:678-770 | a valid RUNNING record always accepts the SUCCESS write, with the given instant, outcomes and links, and is otherwise unchanged |
| Calculation.FailureIsAccepted | shakemap_service/status.py:678-770 | and the FAILED write of any approved phase, with exactly the given failure, instant, outcome and links |
| Finalization.Process.Begin | shakemap_service/finalization.py:126-145 | finalizing is recorded only while nothing is unfinished, and exactly then without faults |
| Finalization.Process.ConsumeBootstrapMarker | shakemap_service/finalization.py:280-315 | grants only after the marker is gone, in the finalizing state, for the marker's own image, and exactly then without faults |
| Finalization.Process.ArmBootstrapMarker | shakemap_service/finalization.py:183-228 | arms only while finalizing and only if no marker waits |
| Finalization.Process.RecordFailure | shakemap_service/finalization.py:148-152 | not-ready is recorded only once the marker is removed |
| Finalization.Process.RecordReady | shakemap_service/finalization.py:155-165 | ready is recorded only from the finalizing state, with this deployment's identity |
| Finalization.Process.ReadReadiness | shakemap_service/readiness.py:268-293 | ready exactly for a provisional process while finalizing or a matching ready identity, and provisional readiness ends outside finalization |
| Finalization.Process.Submit | shakemap_service/submission.py:863-881 | an entry is published only by a process that read itself ready under the same lock |
| Finalization.NoWorkDuringFinalization | shakemap_service/finalization.py:126-315 | from an idle, closed deployment no interleaving creates work until a marker is consumed or readiness recorded |
| Finalization.BeginClosesExactlyWhen | shakemap_service/readiness.py:250-293 | a successful begin closes every process if and only if no other live process holds provisional readiness |
| Finalization.ReadyOpensItsDeployment | shakemap_service/readiness.py:283-293 | recorded readiness opens exactly the processes of the deployment that it names |
| Finalization.BeginKeepsIdleExactlyWhen | shakemap_service/finalization.py:126-145 | from a successful begin on, over every run until a marker is consumed or readiness recorded, nothing is unfinished, if and only if no other process was provisionally ready |
| Finalization.ServicesBootOnMarkers | shakemap_service/finalization.py:280-315 | such a process is reachable from an unused deployment |
| Finalization.ProvisionalReadinessOutlivesBegin | shakemap_service/readiness.py:250-293 | and accepts work after a later successful begin |
| Finalization.MarkersGrantOneBootEach | shakemap_service/finalization.py:183-315 | over every run no more boots are granted than markers were armed |
| Finalization.GrantsStayArmed | shakemap_service/finalization.py:280-315 | each grant uses up a marker armed for this image while finalizing |
| Runner.ProcessTable.PruneCompletedLocked | shakemap_service/runner.py:55-67 | drops exactly the children seen to have exited and no longer owned; without failed polls it sees every exit |
| Runner.ProcessTable.OpenLaunchGate | shakemap_service/runner.py:70-79 | opens only when every child ever spawned has exited, and starts a new generation; refuses only over children still in the table, and without failed polls exactly then |
| Runner.ProcessTable.CloseAndTerminateActive | shakemap_service/runner.py:82-97 | closes the gate and forgets no live child; without failed signals each of them is told to terminate |
| Runner.ProcessTable.Spawn | shakemap_service/runner.py:138-155 | spawns and registers together, and only through an open gate; without faults exactly then |
| Runner.ProcessTable.AwaitChild | shakemap_service/runner.py:156-189 | a child leaves the table only after it was seen to exit, and says whether the service had stopped it; a failed wait keeps it without an owner; no other child is touched |
| Runner.LoggingKeepsOrder | shakemap_service/runner.py:70-155 | in every history nothing is spawned between a close and the next successful open |
| Service.Application.Start | shakemap_service/main.py:152-170 | a scheduler is created only when recovery returned and no callback or child of an earlier lifespan is left; it is refused only for a required restart, a failed recovery or such a child |
| Service.Application.Shutdown | shakemap_service/main.py:80-148 | always ends with the gate closed, and asks for a restart exactly unless every callback has been seen to end; without faults every live child was told to terminate and then killed |
| Status.QueuedAlwaysStarts | shakemap_service/status.py:678-770 | a valid record can be moved to RUNNING exactly when it is QUEUED |
| Status.StartIsRecorded | shakemap_service/status.py:678-770 | starting stamps the record, opens the first phase and changes nothing else |
| Status.OnlyTheStartIsRecorded | shakemap_service/status.py:700-722 | a started record differs from the waiting one in status, progress and the start instant only |
| Status.RunningAlwaysFails | shakemap_service/status.py:724-770 | RUNNING to FAILED validates exactly when the failure names no phase or an approved one |
| Status.FailureIsRecorded | shakemap_service/status.py:724-770 | the written failure is the one given, its phase filled in and equal to the progress phase |
| Status.OnlyTheFailureIsRecorded | shakemap_service/status.py:724-770 | a failed record differs from the running one in status, phase, failure, service outcome and completion only, and these are the given ones |
| Status.OnlyTheStaleFailureIsRecorded | shakemap_service/status.py:930-961 | and so does one failed by recovery in place |
| Status.StaleAlwaysFails | shakemap_service/status.py:860-961 | the recovery write validates under the same condition |
| Status.TransitionFollowsTable | shakemap_service/status.py:66-73 | every successful transition is QUEUED to RUNNING or RUNNING to SUCCESS or FAILED, and yields a valid record of the same identity |
| Status.TransitionRecordsWhatIsGiven | shakemap_service/status.py:678-770 | a successful transition writes the outcomes, paths and instants it was given, the failure in the phase it is about, and nothing else |
| Status.LifecycleOnlyAdvances | shakemap_service/status.py:619-770 | over every history of updates and transitions a record stays valid, keeps its identity, never moves back, and terminal status is absorbing |
| Status.RecordsTellTheirState | shakemap_service/status.py:197-395 | over every history a record has the instants, outcomes and failure of its status, its failure names an approved phase and the one it is in, and its shared paths are its own event's |
| Status.RecordDirectory.UpdateRecord | shakemap_service/status.py:619-654 | applies all changes or none, refuses identity and status changes, and stores only valid records |
| Status.NamedFieldsChange | shakemap_service/status.py:619-654 | after any update each named field shows the last value given for it, and every other field its old one |
| Status.UnknownFieldsAreRefused | shakemap_service/status.py:619-654 | an update raises over its fields exactly when it names one that does not exist |
| Names.QueueNamesRoundTrip | shakemap_service/paths.py:65-79 | names of sequences below 10^20 parse back |
| Names.ParsedQueueNameIsCanonical | shakemap_service/paths.py:71-79 | every parsed name is the one its sequence is given |
| Names.QueueNamesSortNumerically | shakemap_service/paths.py:65-79 | queue names sort as their sequences |
| Names.OverlongQueueNameIsMalformed | shakemap_service/paths.py:65-79 | a name fails to parse back exactly from 10^20 on |
| Names.ArchiveNameRoundTrip | shakemap_service/public_views.py:504-518 | the archive view recovers the event and instant of every archive name, hyphens and stamp-like suffixes included |
| Names.ArchiveNamesAreInjective | shakemap_service/paths.py:146-148 | different events or instants never share an archive name |
| Names.ArchiveNameFits | shakemap_service/request_validation.py:38-53 | every archive name of a valid event fits 255 bytes |
| Names.ArchivePath | shakemap_service/recalculation.py:408-420 | the first free microsecond within the bound, and an error exactly when there is none |
| Names.TickIsTheNext | shakemap_service/recalculation.py:408-420 | the instants tried are consecutive in the calendar, leap years included, and only the end of year 9999 has none after it |
| Names.AllocationSucceeds | shakemap_service/recalculation.py:408-420 | with fewer than a million archive trees and a representable clock a name is always found |

## Left out

- REST handlers, the command-line client, multipart parsing, downloads, image and release identity: input and output around the modelled state.
- Native profile materialization, product validation and provenance contents: each is one outcome of `Calculation.Plan`.
- Symbolic links, permissions, device and inode revalidation: entries are taken to be real directories on one filesystem that only the service edits.
- JSON syntax, temporary names, clocks and SHA-256: datatypes, atomic replacement, time parameters and a hash parameter.
- Lock files: each locked region is one step.
- Concurrency inside one method: the classes act on a volume nobody else changes meanwhile. Interleaving is the subject of `Lifecycle`, whose steps include every intermediate state those methods can leave.
- The rest of the public views, required-product checks and diagnostics: long field checks with only easy properties.
- The native command's own changes to a published tree: after publication only the tree's calculation is tracked.
- Exit codes, signals and failure reports of a child process: given by `Calculation.Native`.
- Failure texts: an interruption is told by "interrupted before publication" or "interrupted after publication", for the longer sentences of the original; the message of a failed calculation stands for its code, without the diagnostic text and secondary evidence; the evidence noted on a failed reconciliation, the message of a `SchedulerError` and the type name in a callback's failure are left out.
- The executor: `Scheduling.Scheduler.handed` is the order in which started records were submitted to it, and one callback runs for each.
- Archive stamps with non-ASCII decimal digits, which the original date parser would accept.
- Scheduling.Scheduler.FinishCalculation: takes execute_calculation at its word that it returns normally only after preparation has promoted the record.
- Uploads.Store.ReplaceExisting: the promise that the old bytes keep a name excludes power failures, for which its contract states the exact condition.
- Reconciliation.ReconcileTransaction: promises what a later power failure leaves only if nothing was unsynced when it began, or only what one interrupted process left and that is not harmful, because the code does not sync what it finds; `Durability.RecoveryIsSafeExactlyWhen` says that no more can be promised.
- Durability.RecoveryIsSafeExactlyWhen: is about what one process left behind that began on a record RUNNING, or failed and saying what is so (recovery raises on SUCCESS); of several stopped one after the other with the power on throughout, and of one that noted a failure, only the renames are treated (`Exposure.NotingDoesNotHelp`).
- Lifecycle.InvAlwaysHolds: a crash leaves what the contracts of the operations allow, so a recovery begun over a harmful unsynced operation and then struck by a power failure is not among its runs.
- Lifecycle.Follow: a calculation may reach SUCCESS there without its evidence, which the tree of the machine does not hold; `Calculation.Workspace.Execute` and `Calculation.SuccessIsEarned` are about the evidence.
- Names.Stamp: writes four digits for every year, as the original does from the year 1000 on.
- Lifecycle.BlockedForever: no liveness is claimed for such an event, and none for slots kept after I/O faults.
- Volumes.Volume.Sync: an operation is durable once every directory it changed has been synced, and until then may be lost whole, but not in part.

# PatchCycle: a verified model of the maintenance cycle

PatchCycle patches a machine in one maintenance cycle that has to survive crashes, power losses and its own
reboots. The parties are short-lived processes (`run`, `resume`, `install`, `uninstall`) that share one durable
record, an archive, an execution lock and a boot-resume unit. This project models that protocol, the code that
plays it, and the store underneath, and proves what the code promises over every possible life of a machine.

## How it fits together

| file | contents |
|---|---|
| `States`, `Window`, `Records`, `Outcomes` | the transition and resume tables, the maintenance window, the cycle record, the final outcome |
| `Codec`, `CodecLaws` | the record as JSON: encoding, validators, decoding, schema-1 migration, and their laws |
| `Protocol` | a run of the machine as a log of events: `Next` is what an event does, `Ok` when it is allowed |
| `Invariants` | what every reachable world satisfies, and that every allowed event keeps it |
| `Safety`, `Archive` | theorems about every legal log |
| `Futures`, `Witnesses` | where a theorem has a condition, that it is the exact one: a log that breaks the promise wherever the condition fails; and such logs built from the start |
| `Disk` | the store over a file system that may lose what was not synced |
| `Refinement` | that the protocol's view of the store is what the disk makes of it |
| `Environment` | the machine around a process as a class, `World`: every effect appends an event the protocol allows, after which the process may be killed or see an exception; loads, saves and archivings are those of `Disk.Store`; results of providers, checks, hooks and notifiers are arbitrary |
| `Edges` | each record the engine saves, shown to be an edit the protocol allows |
| `Accounts` | what in the log accounts for an exception, and for the error kind and exit code a cycle ends with |
| `Reboot`, `Engine`, `Installer` | the code itself, step by step, on a `World` |
| `Lock`, `Interleaving` | the execution lock, and why the protocol may be told one process at a time |
| `Lifetime` | any sequence of processes with any configurations, each under the lock, power cycles, damage and operator recoveries; ties the code to the theorems |

The chain of reasoning is: the code is proved to perform only allowed events (`World.Record` demands it), so the log
of every life is legal (`Lifetime.Machine.Live`); every theorem in `Safety` and `Archive` is about legal logs. What a method of the
engine ensures beyond that it ensures of the log: whatever it raises, some event since its start accounts for
(`Accounts.Explains`), and a cycle is given up only for a reason found there (`Engine.GaveUp`). What
a log says of the store is tied to a volume of `Disk` at every step (`Refinement.Matches`, part of `World.Valid`):
a save or a removal that a kill cuts short leaves the old state of the directory in `past`, from where a power loss
may bring it back, until the next write of that directory returns.

Assumptions: boot IDs are unique and never empty; a fresh run ID is unused; the reboot budget is the same for all
processes, everything else in the configuration may differ from process to process; all processes use the same
state directory and lock file; operations in one directory reach the disk in order; the history directory, made by
the installer (`src/patchcycle/installer.py:371-378`), is itself on disk; enabling or disabling the resume unit is on
disk when `systemctl` returns (`src/patchcycle/installer.py:263-302`). A process may be killed, or see an
exception, at every effect and at every step of a write.

## Where the code and the documents differ

The model follows the code.

- `docs/specifications/failure-recovery.md:100-112` lets a valid sibling or history entry reset a corrupt store.
  The code always refuses (`Archive.CorruptionIsRefused`).
- `docs/specifications/failure-recovery.md:19-29` restarts an early cycle found on the same boot by `run` or
  `resume`. The code's `resume` fails it (`Engine.CycleEngine.Resume`, last clause but one).
- The failure path delivers again to notifiers already marked sent (`Witnesses.SentIsContactedAgain`), and that is
  possible exactly as long as the run is not over (`Futures.ToldAgainIsExact`).
- `docs/specifications/state-machine.md:294-295` has an archived cycle final. If the save of the terminal record was
  cut short before its directory was synced, the next process archives what it finds without saving it again; a
  power loss then brings the unfinished record back, and it is failed and archived over the completed one
  (`Witnesses.CompletedIsOverwritten`). The exact conditions are `Futures.ForGoodIsExact` and `Futures.EndIsExact`;
  an archiving that returned meets them (`Archive.ReturnedArchiveIsForGood`), and so does every cycle the engine
  closes (`Lifetime.ClosedIsForGood`). By the same door an uninstall may take away the resume unit of a cycle that comes back
  (`Futures.UndercuttingIsExact`), and the first save of a cycle may be lost (`Witnesses.UnsettledSaveIsLost`).
- NOTIFYING has no arc to FAILED, so a failure there forces FAILED without a logged transition
  (`Invariants.TrailOk`). If the save of COMPLETED raises after the rename, a cycle that already reported success is
  archived FAILED (`Witnesses.DoneIsArchivedFailed`); `Archive.ReportsMatchArchive` therefore speaks of cycles
  archived COMPLETED.
- A power loss in REBOOTING before the command is accepted as the reboot, by design
  (`docs/specifications/failure-recovery.md:64-71`): what is proved is that a later boot was verified, not that the
  command caused it.

## Model

| member | source | states |
|---|---|---|
| States.ArcsClimb | src/patchcycle/states.py:36-63 | every legal transition climbs, except the four recovery arcs back to PRECHECK |
| Window.AllowsIsExact | src/patchcycle/window.py:25-52 | permission holds exactly when every second of the action, modulo a day, lies in the closed window; same-day, overnight and start = end windows, any duration |
| Window.AllowsDownwardClosed | src/patchcycle/window.py:25-52 | a shorter action is permitted whenever a longer one is |
| Window.AllowsAsTimePasses | src/patchcycle/window.py:25-52 | permitted work stays permitted while it runs |
| Outcomes.FinalOutcomeStable | src/patchcycle/engine.py:711-720 | storing the computed outcome and any delivery results does not change the computed outcome |
| Outcomes.PendingCounts | src/patchcycle/engine.py:312-326 | what counts as pending are the updates not held back |
| Outcomes.UnheldCounts | src/patchcycle/engine.py:346-353 | the package manager is handed exactly the updates on record that are not held back, as many as count as pending |
| Codec.MigrationKeepsSchema | src/patchcycle/state_store.py:299-305 | a valid schema-1 document is still valid after migration |
| CodecLaws.RoundTrip | src/patchcycle/state_store.py:69-162 | every well-formed record is read back exactly as written, through all validators |
| CodecLaws.DecodedIsWellFormed | src/patchcycle/state_store.py:107-162 | whatever is accepted, of either schema, is a record the store can write and read again |
| CodecLaws.DecodeIsStable | src/patchcycle/state_store.py:107-162 | decode, encode, decode equals decode, for every accepted document |
| CodecLaws.MigrationIsDecoding | src/patchcycle/state_store.py:119-122 | a schema-1 document, whatever is in it, is accepted, refused and read exactly as its migration to schema 2 is |
| CodecLaws.NewCycleIsDefault | src/patchcycle/engine.py:94-100 | a cycle as `run` creates it is what a document with nothing but its run, host, time and provider decodes to: creation and decoding have the same defaults |
| CodecLaws.MigrationInventsNoProof | src/patchcycle/state_store.py:299-305 | a boot proof or a finished reboot-first phase comes out of migration only if it went in |
| Invariants.EditKeepsSound | src/patchcycle/engine.py:223-487 | every allowed edit of a record keeps trail, reboot bookkeeping and claims sound, in every state |
| Invariants.StepKeepsInv | src/patchcycle/engine.py:185-215 | every allowed event, of any process or of the environment, keeps the invariant of the world |
| Invariants.Reachable | docs/specifications/state-machine.md:286-295 | the invariant holds after every prefix of every legal log |
| Safety.RebootBudget | src/patchcycle/reboot.py:90-119 | over a machine's whole life one run issues at most twice the maximum of reboot commands, each paid for by an attempt that is on record however the directory comes back |
| Safety.ApplyBound | src/patchcycle/engine.py:328-365 | applies of one run are at most one more than the processes that ended while it stood at UPGRADING |
| Safety.AppliedWorkIsNotRepeated | src/patchcycle/engine.py:329-363 | once any load finds `updates_applied` no process applies for that run again, even where a power loss takes the record of it back |
| Safety.AppliedWorkStays | src/patchcycle/engine.py:354-363 | once `updates_applied` is durable it is there for ever after |
| Safety.UnexpectedRebootFailsSafe | src/patchcycle/engine.py:549-604 | once the boot changed under an early cycle it never applies, repairs or reboots again; whatever is stored for it is FAILED, first after a preflight and a verification by the same process |
| Safety.GatesAreFresh | src/patchcycle/reboot.py:49-72 | a gate counts as passed only if its check passed in this process with no hook, wait or boot since (policy, root and disk space stand for the rest of the process) |
| Safety.GatesAreBacked | src/patchcycle/engine.py:282-294 | what a process remembers of a window or preflight it relies on is what the last check of it found: window, estimate, the whole report |
| Safety.DisruptionIsVetted | src/patchcycle/engine.py:328-345 | at every repair, apply and reboot command the window and the estimate the process remembers are those of the last window check, which passed, with no hook, wait or other process since |
| Safety.RepairFollowsInterruption | src/patchcycle/engine.py:242-255 | nothing is repaired but in PRECHECK, and only when the last preflight of this process found an interrupted transaction |
| Safety.RebootGatesAreFresh | src/patchcycle/reboot.py:90-119 | at every reboot command the record is durably REBOOTING on this boot with timestamp, attempts in budget and no proof, the resume unit is enabled, and policy, users, window and resume path were freshly checked, first try and retries alike |
| Safety.ApplyGatesAreFresh | src/patchcycle/engine.py:328-353 | at every apply the record is UPGRADING on this boot, hooks ran, and preflight and window were checked after the last hook and wait |
| Safety.PrecheckGatesAreFresh | src/patchcycle/engine.py:223-268 | no cycle leaves PRECHECK but for failure unless the process was root, had disk space, and a preflight passed since its last wait |
| Safety.PendingIsAsReported | src/patchcycle/engine.py:256-267 | what the record that leaves PRECHECK says of a pending reboot is what the last preflight or repair, which passed, reported |
| Safety.StaleIsOnlyFailed | src/patchcycle/engine.py:549-588 | a stored cycle is worked on only by a process that created it or found it recent; a stale one is only ever failed |
| Safety.PostRebootIsLater | src/patchcycle/reboot.py:121-131 | POST_REBOOT is only ever held on a boot strictly after the recorded one |
| Safety.RebootIsProved | src/patchcycle/reboot.py:121-139 | leaving POST_REBOOT for more work proves a later boot and, where one is expected, the running kernel |
| Archive.RecordsStay | src/patchcycle/state_store.py:205-218 | only a save puts a record on record for a run, seen now or after a power loss |
| Archive.CyclesAreConserved | src/patchcycle/state_store.py:205-218 | a run whose save returned is found ever after, active, archived or among the unreadable bytes set aside, across any crash; until a purge or an operator clears it away |
| Archive.PurgeForgets | src/patchcycle/installer.py:304-318 | after a purge no process brings any earlier run back; only a power loss undoing the removal could |
| Archive.ArchiveIsImmutable | src/patchcycle/state_store.py:210-218 | what is archived for good never changes: archiving again after a crash is idempotent |
| Archive.ReturnedArchiveIsForGood | src/patchcycle/state_store.py:210-218 | an archiving that returned has archived the cycle for good |
| Futures.ForGoodIsExact | src/patchcycle/state_store.py:205-218 | a copy never changes in any future if and only if no other record of the run may come back, none is in the hands of a process, and the copy itself is on disk |
| Witnesses.CompletedIsOverwritten | src/patchcycle/engine.py:108-114 | the failing input, on any machine and for any run: a completed archive record overwritten by a failed one |
| Disk.CutShortComesBack | src/patchcycle/state_store.py:192-201 | the same on disk: between rename and sync the new record is what a load finds, and all that could come back before still can |
| Archive.FirstSaveOverwritesNothing | src/patchcycle/engine.py:94-100 | the first save of a new cycle finds the store empty |
| Archive.CorruptionIsRefused | src/patchcycle/state_store.py:228-259 | where every state that may come back is unreadable or quarantined, no process loads, saves, applies, reboots or delivers until an operator acts |
| Futures.RefusalIsExact | src/patchcycle/state_store.py:228-285 | refusal is sticky if and only if every state that may come back is refused |
| Archive.NewerSchemaIsUntouched | src/patchcycle/state_store.py:114-118 | a record of a newer schema is refused without any mutation |
| Archive.CompletionIsTruthful | src/patchcycle/engine.py:435-470 | a COMPLETED archive record was verified with nothing outstanding; it is failed exactly for a failed critical health check; manual only with a reboot required or pending; of the rest success_with_warnings exactly where there are warnings or a failed check, no_updates exactly where otherwise nothing was applied, else success, which took an apply of this run that returned ok |
| Archive.CompletedIsTruthful | src/patchcycle/engine.py:209-215 | the archived outcome is the computed one, and its claims hold |
| Archive.RequiredRebootHappened | src/patchcycle/engine.py:367-394 | a cycle completed as done with a reboot required has two different recorded boots |
| Archive.ProofIsNewer | src/patchcycle/engine.py:417-420 | of a cycle archived COMPLETED, the proving boot was recorded, on that boot, after the run last stood at CHECKING_REBOOT; where a reboot was required and the cycle ended as done there is such a proof, of another boot than the cycle began on |
| Archive.EndedIsFinal | docs/specifications/state-machine.md:286-295 | a cycle of which every record there may be has ended is never resumed |
| Futures.EndIsExact | docs/specifications/state-machine.md:294-295 | no load ever finds a run unfinished again if and only if every record of it there may be has ended |
| Futures.KeptIsExact | src/patchcycle/state_store.py:205-218 | a run is never lost if and only if it is in everything that may come back |
| Witnesses.UnsettledSaveIsLost | src/patchcycle/state_store.py:192-208 | the failing input: a first save cut short before its directory was synced |
| Archive.TrailsAreWalks | src/patchcycle/engine.py:500-508 | every audit trail on record, now or after a power loss, is a contiguous walk of the table from IDLE to the current state, or to where FAILED was forced |
| Archive.ReportsMatchArchive | src/patchcycle/engine.py:472-487 | every report delivered from NOTIFYING, across crashes, carried the outcome later archived as COMPLETED |
| Archive.SentIsNotRepeated | src/patchcycle/engine.py:479-484 | a notifier durably marked sent is contacted again only once the cycle has failed |
| Archive.SentWasAnswered | src/patchcycle/engine.py:479-484 | a notifier marked sent on any record there is or may be took a delivery of that run earlier and answered that it was sent |
| Futures.ToldAgainIsExact | src/patchcycle/engine.py:668-683 | a notifier durably marked sent is told again in some future if and only if the run is not over, and then only of a failure |
| Witnesses.SentIsContactedAgain | src/patchcycle/engine.py:674-676 | on any machine, a legal log with a delivery, a durable sent mark, and a second delivery |
| Witnesses.DoneIsArchivedFailed | src/patchcycle/engine.py:484-535 | on any machine, a legal log in which one process reports a cycle as done, sees the save of its COMPLETED record raise with the record in place, and archives it FAILED |
| Archive.RecoveryPathSurvives | src/patchcycle/installer.py:290-302 | from a reboot command on, the resume unit stays enabled for as long as an unfinished cycle or a refused store is there or may come back, whatever installers run, unless one acts on an ending not yet on disk |
| Archive.PendingKeepsUnit | src/patchcycle/installer.py:290-302 | so it does as long as a load finds an unfinished cycle or a refused store, quarantine included |
| Futures.UndercuttingIsExact | src/patchcycle/installer.py:290-302 | once the unit is disabled some future strands a cycle of before, or a refused store nobody tampered with, if and only if an unfinished one may come back |
| Edges.Landed | src/patchcycle/engine.py:528-530 | once a landing move is stored the record can be failed, and once it is on disk the next handler may work on it |
| Edges.StoredFacts | src/patchcycle/engine.py:549-569 | what a recovering process may rely on of the record it loads |
| Accounts.BlameFits | src/patchcycle/errors.py:10-90 | the error kind and exit code of an exception are those of the event that accounts for it: which check, answer or attempt failed decides what goes on record |
| Accounts.VerdictsAreFound | src/patchcycle/engine.py:549-604 | a cycle goes down as stale only if a check found it so, as unexpectedly rebooted only if the boots compared do not let it be recovered |
| Environment.World.Record | docs/specifications/state-machine.md:286-295 | an event takes place only if the protocol allows it, and only with a volume that matches; the log stays legal and the world is the log's |
| Environment.World.Load | src/patchcycle/state_store.py:228-259 | the record or nothing, as the disk has it; corruption is quarantined and refused, a newer schema only refused; an I/O error while quarantining is raised as it is |
| Environment.World.Save | src/patchcycle/state_store.py:205-208 | the old record or the new one is seen, the old one may come back while the new one is not on disk; success means the new one for certain |
| Environment.World.Archive | src/patchcycle/state_store.py:210-218 | success means archived as given and no longer active, now and after a power loss |
| Environment.World.PowerCycle | src/patchcycle/state_store.py:421-428 | after a power loss the machine is on a new boot, with one of the state directories and archives that might come back, and that one for certain |
| Refinement.OnlyMatches | src/patchcycle/state_store.py:192-208 | a write that returned on disk is the settled one of the protocol |
| Refinement.WiderMatches | src/patchcycle/state_store.py:192-208 | a write cut short once it shows is the unsettled one |
| Refinement.PutMatches | src/patchcycle/state_store.py:210-215 | so it is with an archive copy |
| Refinement.PowerLossFinds | src/patchcycle/state_store.py:421-428 | what the disk comes back with is one of the states the protocol says may come back |
| Reboot.RebootController.Evaluate | src/patchcycle/reboot.py:49-72 | a reboot is decided only with policy, users and window all passed after the last wait, each checked as configured and the window for the given estimate; skipped exactly when not required and not always; deferred by policy exactly when required and forbidden, for users or the window only if that check failed; waits at most the user timeout |
| Reboot.RebootController.AwaitUsers | src/patchcycle/reboot.py:58-67 | sleeps at most the user timeout, and gives up only when that is used up or somebody came back; says nobody is there only if the last look found nobody |
| Reboot.RebootController.Commit | src/patchcycle/reboot.py:97-112 | on success the attempt, boot identity and timestamp are durable, the resume path having just been checked; otherwise a reboot or unexpected error, with the record still at REBOOTING |
| Reboot.RebootController.Persist | src/patchcycle/reboot.py:104-112 | on success the durable record carries the current boot identity and one more attempt, everything else the caller relies on unchanged, and the command is paid for |
| Reboot.RebootController.TryOnce | src/patchcycle/reboot.py:90-118 | one attempt more on record, everything else as it was; after a command that failed, still on the boot it was for |
| Reboot.RebootController.Reevaluate | src/patchcycle/reboot.py:92-96 | before a further attempt policy, users and window pass afresh, or a reboot error is raised |
| Reboot.RebootController.Command | src/patchcycle/reboot.py:113-118 | a command that failed leaves record and boot as they were |
| Reboot.RebootController.PrepareAndReboot | src/patchcycle/reboot.py:74-119 | success means an attempt within the budget was commanded and accepted, vetted by a window check for the given estimate; it gives up only for a check that failed or the budget; the record stands at REBOOTING however it ends |
| Reboot.RebootController.VerifyRebooted | src/patchcycle/reboot.py:121-139 | returns the current boot exactly when it differs from the recorded one and the expected kernel runs |
| Engine.Dedup | src/patchcycle/engine.py:304-308 | the same warnings, each once |
| Engine.CycleEngine.Transition | src/patchcycle/engine.py:500-508 | refuses exactly what the table lacks; otherwise the moved record, its trail longer by this move, is durable before anything is done in the new state |
| Engine.CycleEngine.PreflightWithLockWait | src/patchcycle/engine.py:282-294 | waits less than timeout plus one poll, and only for a lock; gives up locked only after the timeout; ends with a fresh preflight, whose result it returns |
| Engine.CycleEngine.DoPrecheck | src/patchcycle/engine.py:223-268 | goes to REBOOT_PENDING exactly when the last preflight or repair reported a pending reboot not yet served, under reboot-first, else to REFRESHING; that report is what goes on record; an interrupted transaction is final only after a repair where repairs are configured |
| Engine.CycleEngine.Repair | src/patchcycle/engine.py:244-255 | repairs only inside the configured window, for an estimate of at least the minimum and the time of every pending package |
| Engine.CycleEngine.DoRefreshing | src/patchcycle/engine.py:296-310 | goes on to DISCOVERING_UPDATES only when the index was refreshed, with the warnings there were and those of the refresh, each once |
| Engine.CycleEngine.DoDiscovering | src/patchcycle/engine.py:312-326 | pending counts the updates not held; nothing pending skips UPGRADING |
| Engine.CycleEngine.DoUpgrading | src/patchcycle/engine.py:328-365 | success leaves the work recorded, the apply having been vetted for the configured window and the whole estimate; a failure at any point leaves a record that can be failed |
| Engine.CycleEngine.PrepareUpgrade | src/patchcycle/engine.py:332-345 | success means every condition of an apply holds now: the last window check in the log passed for the configured window and for the minimum and every pending package, with no hook or wait since |
| Engine.CycleEngine.FinishUpgrade | src/patchcycle/engine.py:356-365 | the work is durable before the next hook may fail |
| Engine.CycleEngine.DoCheckingReboot | src/patchcycle/engine.py:367-380 | the exact next state for report-only, required, always and neither |
| Engine.CycleEngine.DoRebootPending | src/patchcycle/engine.py:382-394 | a required reboot is passed over only by policy, and then recorded as manual; REBOOTING only with policy, users and the configured window checked for the time a reboot takes |
| Engine.CycleEngine.DoRebooting | src/patchcycle/engine.py:396-415 | the decision was made afresh, the command was given, vetted for the configured window and the time of a reboot; a further attempt is durable; POST_REBOOT exactly on a changed boot |
| Engine.CycleEngine.BootChanged | src/patchcycle/engine.py:629-636 | says whether the current boot is another than the record knows last |
| Engine.CycleEngine.DoPostReboot | src/patchcycle/engine.py:417-433 | reboot-first leads back to PRECHECK with its attempts forgotten, otherwise on to VERIFYING |
| Engine.CycleEngine.DoVerifying | src/patchcycle/engine.py:435-447 | passes only when consistent with nothing outstanding; a verification failure is on record |
| Engine.CycleEngine.DoHealthChecking | src/patchcycle/engine.py:449-470 | always goes on to NOTIFYING; a critical failure is on record as the error |
| Engine.CycleEngine.DeliverWithRetries | src/patchcycle/engine.py:655-666 | the log grew by one to three deliveries and the pauses between them, and nothing else; the first answer "sent" settles it and nothing else makes it sent, otherwise the third answer does, an exception being a failure; never raises |
| Engine.CycleEngine.NotifyOne | src/patchcycle/engine.py:479-484 | a told notifier is skipped; otherwise its durable status is what this delivery came to, and no other status changes |
| Engine.CycleEngine.DoNotifying | src/patchcycle/engine.py:472-487 | completes with the outcome it reported; the status of every notifier not told before is what a delivery of that outcome came to, and nobody else's changes |
| Engine.CycleEngine.Fail | src/patchcycle/engine.py:510-547 | success means archived FAILED for good with the error kind raised and the outcome the exit code stands for, the failure hooks ran, and the status of every notifier is what a delivery of the failure came to |
| Engine.CycleEngine.MarkFailed | src/patchcycle/engine.py:528-535 | the failed record is the durable one with only state, trail and timestamp changed by a logged arc of the table, or with the state alone forced where there is none |
| Engine.CycleEngine.NotifyBestEffort | src/patchcycle/engine.py:668-683 | the failure is delivered to every notifier, told before or not, and its status is what that came to; the outcome is untouched |
| Engine.CycleEngine.Step | src/patchcycle/engine.py:217-219 | every handler leaves the next record held and one step further, or a record that can be failed |
| Engine.CycleEngine.Drive | src/patchcycle/engine.py:185-215 | terminates, having first made the move to where it starts; ends waiting at REBOOTING with 0 for a command it gave, or archived: completed with 6 exactly for manual_reboot_required, 1 exactly for failed and 0 exactly for what is done, or failed with 2 exactly for blocked and else 1, under a kind and a code that an event of this drive accounts for; never asks for an illegal transition |
| Engine.CycleEngine.Conclude | src/patchcycle/engine.py:209-215 | the record with its final outcome was saved and archived; 6 exactly for manual_reboot_required, 1 exactly for failed, 0 exactly for what is done |
| Engine.CycleEngine.DiagnoseAndFail | src/patchcycle/engine.py:590-604 | diagnostics are read-only; the cycle ends archived FAILED under the given kind, exit code 1 |
| Engine.CycleEngine.RebootNeverHappened | src/patchcycle/engine.py:606-627 | within the budget and ten minutes of the command it rests up to half a minute and gives it again; otherwise, and only then, the cycle ends FAILED as reboot-failed |
| Engine.CycleEngine.RecoverSameBoot | src/patchcycle/engine.py:549-578 | a record found stale ends FAILED as such; on another boot one that waits for proof of its reboot goes on at POST_REBOOT and any other ends FAILED as unexpected-reboot; on the same boot REBOOTING is retried, what comes before the upgrade's end goes back to PRECHECK, the rest goes on where it was, and none of these ends as stale or unexpectedly rebooted |
| Engine.CycleEngine.Run | src/patchcycle/engine.py:80-100 | a disabled run does nothing; a refused store ends with 1; a pending cycle is recovered as `RecoverSameBoot` says; otherwise an ended one is archived and a new one, of an unused run, is begun at PRECHECK and left waiting, completed or given up for a reason; an unexpected reboot ends FAILED |
| Engine.CycleEngine.Resume | src/patchcycle/engine.py:102-126 | a refused store ends with 1; nothing pending ends with 0, an ended cycle archived; with a proof of its reboot a cycle is recovered as by `run`; without it goes on only at POST_REBOOT or later on a new boot, or retries its reboot on the same, and any other ends FAILED as unexpected-reboot; one saved before REBOOTING always ends FAILED, whatever the boot |
| Installer.Installer.RequireIdle | src/patchcycle/installer.py:290-293 | passes only over a loaded store with no cycle pending, and touches nothing |
| Installer.Installer.Install | src/patchcycle/installer.py:219-268 | success means the resume unit is enabled; refused only without root, over a pending cycle, or when something went wrong; a pending cycle and the archive are untouched |
| Installer.Installer.Uninstall | src/patchcycle/installer.py:280-319 | success means the unit is gone, and the state too when purging; refused only without root, over a pending cycle, or when something went wrong; never done while a cycle is pending |
| Lifetime.Machine.Do | src/patchcycle/cli.py:311-338 | any one deed, start to end or to sudden death, keeps the log legal and leaves the lock free |
| Lifetime.Machine.Enter | src/patchcycle/cli.py:311-338 | a process works only with the lock acquired, and lets go of it or has it dropped by the kernel |
| Lifetime.Machine.Live | src/patchcycle/engine.py:80-126 | for any sequence of processes and accidents: reboot budget, apply bound and truthful archive |
| Lifetime.ClosedIsForGood | src/patchcycle/engine.py:209-215 | a cycle the engine closed is archived for good and over, and nothing on record contradicts its exit code |
| Lock.ExecutionLock.Acquire | src/patchcycle/lock.py:34-81 | taken only from nobody; a refusal changes nothing |
| Lock.ExecutionLock.Release | src/patchcycle/lock.py:83-93 | lets go of one's own lock and of no other |
| Interleaving.HolderHasSession | src/patchcycle/lock.py:1-7 | the holder entered once and has had the lock to itself since |
| Interleaving.WorkIsSequential | src/patchcycle/lock.py:1-7 | in any interleaving all work is done inside one uninterrupted session of its process |
| Interleaving.MutualExclusion | src/patchcycle/lock.py:59-75 | who enters finds nobody inside, who works is the only one inside and holds the lock |
| Interleaving.Serializable | src/patchcycle/lock.py:1-7 | any interleaving of processes that each go by their own notes is, under the lock, a legal log of one after another |
| Interleaving.BudgetUnderTheLock | src/patchcycle/reboot.py:90-119 | so the theorems hold of interleavings: the reboot budget |
| Disk.ReplacedIsNew | src/patchcycle/state_store.py:192-201 | after the rename every possible directory is an old one or the new one with synced content; after the sync only the new |
| Disk.SaveIsAtomic | src/patchcycle/state_store.py:205-208 | after any interruption of a save every later load finds what it might have found before, or the new record |
| Disk.SaveKeepsArchive | src/patchcycle/state_store.py:205-208 | no save endangers an archive copy |
| Disk.RemovalIsSafe | src/patchcycle/state_store.py:216-217 | where the active record is gone its archive copy survives any power loss |
| Disk.PowerLossPicks | src/patchcycle/state_store.py:421-428 | after a power loss a load finds one of the possibilities, and durable archive copies are all there |
| Disk.Store.AtomicWrite | src/patchcycle/state_store.py:178-203 | interrupted at any micro-step: the old content or the new; returning: the new for certain |
| Disk.Store.Save | src/patchcycle/state_store.py:205-208 | the same for the active record, as loads see it |
| Disk.Store.Archive | src/patchcycle/state_store.py:210-218 | interrupted anywhere: an active record is missing only where its copy survives; archiving again is harmless; every archive there may be is an old one or has the copy |
| Disk.Store.PutCopy | src/patchcycle/state_store.py:210-215 | a load sees nothing of it; no other copy is lost |
| Disk.Store.RemoveActive | src/patchcycle/state_store.py:216-218 | the active record is gone, and may come back only until the directory is synced |
| Disk.Store.Quarantine | src/patchcycle/state_store.py:275-285 | interrupted anywhere: every later load refuses, and the invalid bytes are still there |
| Disk.Store.Load | src/patchcycle/state_store.py:228-259 | what each kind of state file yields; refusal is sticky; only quarantining changes the disk |
| Disk.Store.LosePower | src/patchcycle/state_store.py:421-428 | refusal, evidence and archive copies survive a power loss |
| Disk.Store.Live | src/patchcycle/state_store.py:165-285 | any sequence of interrupted saves, archivings, loads and power losses is one on an atomic cell: after a save that returned that record and no other; after one cut short that or what was possible before; nothing only before the first save or where the archive has the record; one possibility after a power loss; every load returns what one of the possibilities of its moment reads as |
| Disk.Store.StayRefused | src/patchcycle/state_store.py:228-285 | over any sequence of loads, interrupted quarantines and power losses every load refuses and the invalid bytes stay |

## Left out

- Environment.World.Save: a directory or file whose owner or mode is refused is one more exception here; the source raises it as a state error, which changes the error kind on record.
- Environment.World.PurgeState: removing the state directory is taken as emptying it and the history directory, in one event; a purge cut short halfway is not modelled.
- Environment.World.Tamper: damage is done between processes, and what is in quarantine is left alone.
- Environment.World.RunHooks: an empty list of hooks counts as hooks that ran; hook programs are not modelled.
- Environment.World.Uuid: a run ID that collides with a used one is not modelled.
- Environment.World.Rebooter: a machine that comes up again inside the call is the simulation path of `_do_rebooting`; in production the process dies there.
- Refinement.WiderMatches: what may come back on disk is among what the protocol says may; the protocol may say more.
- Lock.ExecutionLock.Acquire: owner, type and mode checks of the lock file are one yes or no; the PID text in it is not modelled.
- Lifetime.Machine.Live: tells one process after another; that any interleaving comes to this is proved of the protocol, in `Interleaving`, and not of the methods of the engine.
- Provider internals, health probes, hook and notifier programs: arbitrary well-typed results, or an exception.
- Environment.World.ApplyUpdates: what is handed to the package manager is required to be the unheld updates on record; the log tells only that something was applied.
- Report text, redaction of error messages, logging, CLI output, unit files, release tools: no effect on the protocol.
- JSON and TOML parsing: documents are JSON values, configurations are validated records.
- File ownership, modes and symbolic links: such a refusal is the exception every store operation may raise.
- Timestamps: the times put on record are arbitrary, and staleness and elapsed time may come out either way at every use; the window works on exact seconds of the local day, without microseconds or daylight saving.
- `dry_run` and `updates`: they only read. The Windows branches are development-only.
- `history()`: a skipping reader of archive copies; only its files are modelled.

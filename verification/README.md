# Coagent in Dafny

Coagent is a long-lived daemon that runs agent sessions, background processes, configuration changes,
chat delivery and language-server clients. Its hard parts are protocols: conditional updates that race,
locks held while waiting, writes that a crash can cut anywhere, resources that must be given back exactly
once. This project models the parts below and proves what they promise over every run.

Each protocol is a state machine: a state datatype, a `Step` datatype with one constructor per atomic
action (a method under a mutex, one SQL statement or transaction, one file rename, one channel
operation), `Enabled`, and `Take`. Everything between two locks is a separate step, so a theorem over
reachable states covers every interleaving. Where the source is an object with methods, a class with the
same fields carries methods whose postconditions equal the machine's functions. Database calls, file
writes and sends may fail or, where it matters, succeed and still report failure; their outcomes are
parameters.

| file | part of the daemon |
|---|---|
| `Options.dfy` | an optional value, shared by the others |
| `ProcessLedger.dfy` | durable background-process rows, first cause wins, the completion fact |
| `ProcessService.dfy` | admission counters, starts, supervisors, crash and shutdown on top of the ledger |
| `ProcessPromotion.dfy` | admission by what is held, the row a start gets, its promotion |
| `ProcessCancel.dfy` | cancelling the processes of a set of sessions and joining them |
| `SessionForest.dfy` | session trees, stop plans, boot recovery of interrupted stops |
| `StoredStops.dfy` | every writer of the session table; which tables boot can meet |
| `TreeFence.dfy` | process starts and tree stops behind one lock per tree |
| `TreeFenceRuns.dfy` | what a fenced start and a tree stop come to |
| `RunnerAdmission.dfy` | runner slots, waiting queue, drain and retry |
| `RunnerExit.dfy` | a runner's exit against a stop or kill that joins it |
| `SortedNames.dfy` | a set of names in order |
| `ConfigCommit.dfy` | backup, marker, config; what a boot makes of them |
| `ConfigApplier.dfy` | the single claim, staged candidates and their ends |
| `Utf8.dfy` | well-formed UTF-8 |
| `TailScan.dfy` | reverse block scan with a ring buffer |
| `ChatDelivery.dfy` | the chat loop, its durable cursor and entry prelude |
| `LspFraming.dfy` | message frames, printer and parser |
| `LspHeaders.dfy` | which header blocks are accepted and refused, in the protocol's characters |
| `LspTransport.dfy` | write queue, pending calls and the end of a client |
| `LspDelivery.dfy` | queued frames reach the wire, an ended client has answered |
| `MarketplaceCache.dfy` | the incremental plugin cache against the direct scan |
| `MarketplaceRuns.dfy` | concurrent resolves of that cache behind one lock per URL |
| `SkillEnvelope.dfy` | rendering a skill and finding it again |
| `SkillBatch.dfy` | the header lines and segments of a batch of tool calls |
| `SkillCalls.dfy` | finding a skill in the result of its call, direct or in a batch |
| `BatchOutput.dfy` | the skills in a batch's output, trimmed as it is returned |

Nine properties one would expect turned out false of the code. For each there is a lemma with an input
that shows it and a theorem that says exactly when the property does hold:

- The completion fact of an advertised, unsuppressed process is missing when its session was terminating
  or killed at finalization (`FactLostWhenOwnerKilled`, `FactExactlyWhenDelivered`).
- A queued runner stays queued with a slot free when a direct start fails after it was admitted
  (`WakeUpLost`, `LostExactlyBehindUnheededFailure`, `NoLostWakeUpExactlyWhenAdmittedStartsRegister`).
- An applied configuration change loses its way back when twenty backups carry later names
  (`ClockBehindLosesTheWayBack`, `BackupSurvivesExactlyWhenNewest`).
- A later boot can run on a rejected change (`RejectedYetLive`, `RejectedRunsExactlyWhenOnlySyncFailed`),
  although `internal/configops/verdict.go` says a rejection persists nothing; the model follows the code.
- An apply that fails or dies before its marker disturbs an older one still pending when it leaves
  something else under the name of that one's way back, as in the same second: a torn copy or a whole one
  (`SameSecondDisturbs`, `OlderApplyUndisturbedExactlyWhenNotOverwritten`,
  `StampIsDangerousExactlyWhenPendingUnderIt`).
- The configuration claim leaks when a call is staged again while its earlier result is still being
  written (`ClaimLeaks`, `LeakedExactlyWhenStruck`, `ClaimExactExactlyWhenCallsAreFresh`).
- The LSP writer's channel is closed twice when the client exits while its writer is being set up
  (`ClosesTwice`, `ClosedTwiceExactlyWhenSetUpDuringTheEnd`).
- Shrinking a tail drops a line that would have fitted when it starts exactly at the cut
  (`TruncateDropsALineThatFits`, `TruncateTailToBytes`).
- A skill is not found again in the result of its call when its name holds the start marker of an
  envelope, which a name of several lines can (`MarkerInNameLosesTheSkill`,
  `DirectCallFoundExactlyWhenNoMarkerInName`).

Two facts are about inputs the daemon reads but does not write. A skill called in a batch is also lost when
its text quotes a batch's header line (`SomeSkillIsLost`, `SkillCallFoundExactlyWhenNoHeaderInside`); the
batch tool has stopped taking skill calls, only the reading of what it wrote before is left. And among
arbitrary tables boot recovery passes over a live stopping session below a killed stopping one that is
itself below a stopping one (`StopsCanBeHidden`); the daemon never stores such a table
(`NoStopIsEverHidden`), so its recovery is complete (`RecoverStoredTable`).

## Model

| member | source | states |
|---|---|---|
| `ProcessLedger.Store.InsertProcess` | internal/backgroundprocess/store.go:56-84 | a row is inserted once and only if the table's constraints allow it |
| `ProcessLedger.Store.RecordIntent` | internal/backgroundprocess/store.go:128-148 | only a running row without an intent takes one; the reply says whether this call won |
| `ProcessLedger.Store.Advertise` | internal/backgroundprocess/store.go:153-169 | only a running, unadvertised row is advertised, and then it is |
| `ProcessLedger.Store.Finalize` | internal/backgroundprocess/finalize_store.go:15-69 | one transaction decides the outcome, updates the row and enqueues the fact, or changes nothing; the returned row is the stored terminal one |
| `ProcessLedger.Store.DecideRow` | internal/backgroundprocess/store.go:227-275 | the terminal row: durable intent, else fallback, else natural exit |
| `ProcessLedger.Store.FinalizeWithIntent` | internal/backgroundprocess/store.go:185-196 | the same with a fallback intent; an empty intent is refused |
| `ProcessLedger.ApplyEvolves` | internal/backgroundprocess/store.go:126-275 | every ledger operation keeps recorded intents and everything a terminal row says |
| `ProcessLedger.FirstCauseWins` | internal/backgroundprocess/store.go:126-148 | over any history what was recorded at an earlier point still stands later |
| `ProcessLedger.OutcomeMatchesCause` | internal/backgroundprocess/finalize_store.go:24-50 | a terminal row with an intent has that intent's state; an exit code is present exactly on completed and failed rows |
| `ProcessLedger.FinalizePrecedence` | internal/backgroundprocess/store.go:227-275 | durable intent before fallback before natural exit, with the exit code only on a natural end |
| `ProcessLedger.EveryEndIsAllowed` | migrations/00037_agent_process_cancellation.sql:18-42 | the table's constraints never refuse an end, whatever cause decides it |
| `ProcessLedger.AllowedRowsMatch` | migrations/00037_agent_process_cancellation.sql:18-42 | and they refuse every row whose state does not follow from its cause |
| `ProcessLedger.RowIsItsWonCalls` | internal/backgroundprocess/store.go:56-275 | over any history, from calls and answers alone: a row exists, is advertised, has a cause, is terminal exactly when an insert, an advertised insert or a promotion, a record, an end was won |
| `ProcessLedger.RowKeepsWonCall` | internal/backgroundprocess/store.go:56-148 | session, root and cause are those of the call that won |
| `ProcessLedger.SizeIsLastWritten` | internal/backgroundprocess/finalize_store.go:15-69 | the size is the one written last |
| `ProcessLedger.WinnersByHistory` | internal/backgroundprocess/store.go:126-196 | which call wins, by which have won before |
| `ProcessLedger.FactsAlwaysEarned` | internal/backgroundprocess/finalize_store.go:50-69 | over any history every fact belongs to a terminal, advertised, unsuppressed row of its session, and none is there twice |
| `ProcessLedger.ApplyAddsFact` | internal/backgroundprocess/finalize_store.go:15-69 | one operation adds a fact exactly when it finalizes an owing row whose session accepts |
| `ProcessLedger.FactExactlyWhenDelivered` | internal/backgroundprocess/finalize_store.go:15-69 | over any history the inbox holds the fact, once, if and only if the row was finalized owing one while its session accepted |
| `ProcessLedger.FactExactlyWhenEndOwes` | internal/backgroundprocess/finalize_store.go:15-69 | the same from calls and answers alone: one fact if a won end follows a won advertisement, its first cause is no stop, kill or cancellation and its session was not refused before, else none |
| `ProcessLedger.WonPromotionWakes` | internal/backgroundprocess/service.go:220-249 | a won promotion and then an end without a cause leave the fact |
| `ProcessLedger.FactExactlyWhenOwed` | internal/backgroundprocess/types.go:74-77 | for sessions that never refused, facts are exactly the terminal, advertised, unsuppressed rows |
| `ProcessLedger.FactLostWhenOwnerKilled` | internal/sessionstore/enqueue.go:447-461 | without the session's status the rule is false: a history with an owing row and no fact |
| `ProcessService.RunIsLedgerHistory` | internal/backgroundprocess/service.go:158-217 | every run of starts, supervisors, cancels, crashes and boots acts on the ledger as a history of its operations |
| `ProcessService.LedgerGuaranteesOverRuns` | internal/backgroundprocess/store.go:128-275 | all ledger guarantees in every state of every interleaving |
| `ProcessService.CountersConserved` | internal/backgroundprocess/admission.go:18-135 | in every reachable state live, candidate and background counters equal the outstanding reservations, at most 1 candidate and 4 background |
| `ProcessService.ReleaseIsExact` | internal/backgroundprocess/admission.go:82-99 | the guarded decrements never hide an imbalance |
| `ProcessService.NothingEscapesShutdown` | internal/backgroundprocess/cancel.go:87-105 | once a shutdown has read its list, every supervised process is on it or already has a cause |
| `ProcessService.ShutdownListsWhatRuns` | internal/backgroundprocess/cancel.go:87-105 | from every state admission can be closed, and the list then read is exactly the running rows |
| `ProcessService.ClosedAdmitsNoStart` | internal/backgroundprocess/admission.go:18-24 | closed admission stays closed and lets no start in until a restart |
| `ProcessService.StartedRow` | internal/backgroundprocess/service.go:188-193 | an insert leaves the row of the start's session and flag, running and without cause, or changes no row |
| `ProcessService.NoLiveMeansNothingHeld` | internal/backgroundprocess/admission.go:59-80 | with every live counter at zero nothing is tracked, supervised or starting |
| `ProcessService.FallbackOverridesNatural` | internal/backgroundprocess/admission.go:205-240 | finalizing with the fallback's own state is finalizing with it as fallback |
| `ProcessService.Service.Reserve` | internal/backgroundprocess/admission.go:18-43 | admitted exactly when open and with room in its class; otherwise nothing changes and the refusal names the limit |
| `ProcessService.Service.ReleaseReservation` | internal/backgroundprocess/admission.go:82-99 | one reservation of the class is given back, never below zero |
| `ProcessService.Service.ReleaseTrackedProcess` | internal/backgroundprocess/admission.go:120-135 | a tracked process is forgotten with its reservation, an unknown one changes nothing |
| `ProcessService.Service.RecordFallbackIntent` | internal/backgroundprocess/admission.go:144-170 | the first fallback intent of a tracked process is kept |
| `ProcessService.Service.Advertise` | internal/backgroundprocess/service.go:220-249 | capacity check, durable update and class switch as one transition; a full session changes nothing |
| `ProcessService.Service.FinalizeWithRetry` | internal/backgroundprocess/admission.go:205-240 | up to three attempts amount to one finalization that succeeds if any attempt's transaction does |
| `ProcessService.Service.FinalizeTracked` | internal/backgroundprocess/admission.go:172-203 | the row is finalized with the fallback in force and the reservation given back once |
| `ProcessPromotion.AdmittedExactlyByHeld` | internal/backgroundprocess/admission.go:18-43 | in every reachable state a start is admitted if and only if the service is open and its session holds fewer than 4 advertised processes, or no candidate |
| `ProcessPromotion.PromotionRefusedExactlyWhenFull` | internal/backgroundprocess/service.go:220-249 | a tracked candidate's promotion is refused if and only if its session holds 4 |
| `ProcessPromotion.PromisesOverRuns` | internal/backgroundprocess/service.go:158-249 | over every run a started process's row has the session, root and flag its start asked for, and a tracked process is in the background class exactly when its row is advertised |
| `ProcessPromotion.FirstFallbackStays` | internal/backgroundprocess/admission.go:144-170 | a fallback is kept, and the first one brought is taken, whatever happens |
| `ProcessCancel.PollOnce` | internal/backgroundprocess/cancel.go:256-300 | exactly the rows still to be waited for remain; a missing or unreadable row is a failure |
| `ProcessCancel.JoinCancelled` | internal/backgroundprocess/cancel.go:256-300 | success means every listed process is terminal, failure that one is not or could not be read, whatever others did to ledger and service between polls |
| `ProcessCancel.CancelRecord` | internal/backgroundprocess/cancel.go:212-254 | the intent is won exactly on a running row without one; a record with a cause that is not signalled as tracked ends terminal, whatever others did to ledger and tracked table in between |
| `ProcessCancel.CancelListed` | internal/backgroundprocess/cancel.go:192-210 | undisturbed, the count is exactly the listed processes that had no cause |
| `ProcessCancel.CancelSessions` | internal/backgroundprocess/cancel.go:63-85 | success means no running process is left in the given sessions; undisturbed, the count is exactly those that had no cause |
| `SessionForest.Subtree` | internal/daemon/trees.go:542-562 | exactly the reachable ids, once each, on any parent relation, cyclic ones included |
| `SessionForest.StopIds` | internal/daemon/trees.go:564-586 | the root and every stop-active session reachable without entering a killed one, once each |
| `SessionForest.LoadTree` | internal/daemon/trees.go:514-540 | the loaded tree has the stored sessions of its root and their parent links, both ways |
| `SessionForest.StopPlan` | internal/daemon/trees.go:690-736 | exactly the sessions a stop covers: stop-active ones, those with live runners, yielded open children |
| `SessionForest.ReachesIsDescends` | internal/daemon/trees.go:542-586 | reachability by child lists is descent by stored parents |
| `SessionForest.SessionStore.BeginStop` | internal/daemon/trees.go:621-640 | exactly the covered sessions are marked stopping, some of them when the store fails; a storable table stays storable |
| `SessionForest.SessionStore.FinishStop` | internal/daemon/trees.go:650-668 | exactly they end stopped, but for a root left to its caller; a storable table stays storable |
| `SessionForest.SessionStore.StopTreeCleanup` | internal/daemon/trees.go:261-321 | after cleanup nobody below the root, through live sessions, is active, suspended or stopping, nor any session with a live runner of the root or a completed one still owed; everyone else is as before; after a store error some are left stopping |
| `SessionForest.OutcomeReaches` | internal/daemon/trees.go:564-736 | what the plan's sessions stopped and no other mean, status by status |
| `SessionForest.SessionStore.CompleteExplicitStop` | internal/daemon/trees.go:670-688 | the root leaves stopping; it fails only on a root neither stopping nor stopped or on a store error; a storable table stays storable |
| `SessionForest.TopmostAbove` | internal/daemon/boot.go:158-199 | without hidden ones every live stopping session descends from a topmost one through live sessions |
| `SessionForest.HiddenIsNeverCovered` | internal/daemon/boot.go:158-199 | no cleanup of a topmost session covers a hidden one |
| `SessionForest.CleaningReachesBelow` | internal/daemon/boot.go:158-199 | cleaning a topmost session reaches all below it and nothing hidden |
| `SessionForest.StopsCanBeHidden` | internal/daemon/boot.go:158-199 | among arbitrary tables there is a forest in which a live stopping session is hidden |
| `SessionForest.StorableHidesNothing` | internal/daemon/boot.go:158-199 | a forest without killed stopping sessions below its roots hides none |
| `SessionForest.StopKeepsStorable` | internal/daemon/trees.go:621-640 | a stop, even one cut short, marks no killed session below the roots |
| `SessionForest.OtherStatusKeepsStorable` | internal/sessionstore/store.go:507-530 | no write of another status does |
| `SessionForest.RecoveryIsComplete` | internal/daemon/boot.go:158-199 | once all below each topmost session is clean: no live session stopping if and only if none was hidden, and in a storable table none at all |
| `SessionForest.SessionStore.RecoverStoppingSessions` | internal/daemon/boot.go:158-199 | for every acyclic forest recovery without store errors leaves no live session stopping if and only if none was hidden, and in a storable table no session at all; recovery cut short leaves a storable table |
| `StoredStops.PlanIsLive` | internal/daemon/trees.go:690-736 | a stop plans its target and otherwise only live sessions of its tree |
| `StoredStops.InvOverRuns` | internal/sessionstore/store.go:470-530 | over every interleaving of creation, kills, fences, stops, crashes and status writes the table is a storable forest and planned sessions stay markable |
| `StoredStops.NoStopIsEverHidden` | internal/daemon/boot.go:158-199 | every table a run can leave, at whatever crash, hides no stop |
| `StoredStops.PlanIsMarked` | internal/daemon/trees.go:621-633 | from every reachable table a stop can mark its whole plan, and then exactly the planned sessions are stopping that were not before |
| `StoredStops.PlanLasts` | internal/daemon/trees.go:690-736 | the plan is what it covers; the lock given back leaves the other plans, a crash none |
| `StoredStops.KilledForGood` | internal/sessionstore/store.go:470-530 | over every run a killed session stays stored and killed |
| `StoredStops.RecoverStoredTable` | internal/daemon/boot.go:158-199 | boot recovery of such a table without store errors leaves no session stopping |
| `TreeFence.FencedInsertStaysOutside` | internal/daemon/trees.go:95-127 | a process row is never inserted into a subtree being stopped |
| `TreeFence.SpawnKeepsSubtree` | internal/daemon/trees.go:606-615 | the subtree being stopped does not grow under the stop |
| `TreeFence.InvOverRuns` | internal/daemon/trees.go:778-799 | in every state of every run the stop's pending set covers the subtree's running rows |
| `TreeFence.StopLeavesNoRunningProcess` | internal/daemon/trees.go:323-340 | when the stop's cancellation returns without error no running row belongs to the subtree |
| `TreeFence.CheckAdmitsExactlyLive` | internal/daemon/trees.go:95-127 | a start is admitted if and only if it finds its root neither stopping, terminating nor killed |
| `TreeFence.InserterFoundLive` | internal/daemon/trees.go:95-127 | over every run a start about to insert has found its root so |
| `TreeFenceRuns.UndisturbedStart` | internal/daemon/trees.go:95-127 | a start nobody disturbs gets its row in if and only if its root is live and the store takes the row, and gives the lock back either way |
| `TreeFenceRuns.StopJoinsItsSubtree` | internal/daemon/trees.go:778-799 | what a stop joins is exactly the running processes of its subtree |
| `TreeFenceRuns.StopCanAlwaysSucceed` | internal/daemon/trees.go:778-799 | from every state a stop that has met no failure can return without error by its own steps and its processes' ends |
| `TreeFenceRuns.OkMeansNoFailure` | internal/daemon/trees.go:778-799 | over every run a failed listing, poll or deadline is reported when the stop returns |
| `TreeFenceRuns.StopGivesLockBack` | internal/daemon/trees.go:606-615 | a returned stop frees its tree's lock and no other actor's |
| `RunnerAdmission.Runners.Register` | internal/daemon/runners.go:87-102 | a runner is registered once per session and not after close |
| `RunnerAdmission.Runners.Remove` | internal/daemon/runners.go:104-112 | the registered runner's slot goes back with it, once |
| `RunnerAdmission.Runners.TryAdmit` | internal/daemon/runners.go:128-143 | admitted exactly when the caps that bind it allow |
| `RunnerAdmission.Runners.ReleaseSlot` | internal/daemon/runners.go:145-162 | the counters step back and a parent's zero entry disappears |
| `RunnerAdmission.Runners.Enqueue` | internal/daemon/runners.go:169-176 | a session is queued once |
| `RunnerAdmission.Runners.NextAdmissible` | internal/daemon/runners.go:178-190 | the first admissible entry is taken and nothing else moves |
| `RunnerAdmission.Runners.Forget` | internal/daemon/runners.go:199-204 | exactly the named sessions leave the queue, order kept |
| `RunnerAdmission.SlotsConserved` | internal/daemon/runners.go:87-176 | in every reachable state counters equal registered runners plus admitted starts, children is the sum over parents, no zero entry, caps 16, 12 and 8, queue without repeats or blocking children |
| `RunnerAdmission.AdmittedExactlyBySlotsInUse` | internal/daemon/runners.go:164-167 | in every reachable state a root start is admitted if and only if the set is open and fewer than 16 slots are in use, a child start if besides fewer than 12 are children's and fewer than 8 its parent's |
| `RunnerAdmission.NoWaiterIsDropped` | internal/daemon/runners.go:305-420 | a queued session stays queued or in a drain's hands, whatever fails, until it is registered, forgotten by a stop or found to need no start |
| `RunnerAdmission.DrainTakesTheFirst` | internal/daemon/runners.go:178-190 | a drain takes the first queued runner that can be admitted, leaves the others in order, and finds one exactly when there is one |
| `RunnerAdmission.NoRoomMeansWaiting` | internal/daemon/runners.go:305-326 | a background session that finds no room is queued |
| `RunnerAdmission.WakeOverRuns` | internal/daemon/runners.go:374-420 | whenever a queued runner is admissible, some actor will still look at the queue |
| `RunnerAdmission.WakeUpLost` | internal/daemon/runners.go:328-372 | a run that ends quiescent with an admissible runner queued |
| `RunnerAdmission.AwakeOrUnheeded` | internal/daemon/runners.go:374-420 | in every run an admissible runner queued has someone on the way to it, or a direct start failed after admission and nobody has looked at the queue since |
| `RunnerAdmission.LostExactlyBehindUnheededFailure` | internal/daemon/runners.go:328-420 | over the runs of the daemon as it is, a wake-up is lost behind such a failure and only there |
| `RunnerAdmission.NoLostWakeUpExactlyWhenAdmittedStartsRegister` | internal/daemon/runners.go:305-326 | no quiescent state has an admissible runner queued if and only if admitted direct starts register |
| `RunnerExit.InvOverRuns` | internal/daemon/run.go:178-241 | the exit protocol's invariant over every run |
| `RunnerExit.ExitHappensOnce` | internal/daemon/run.go:178-285 | done is closed and the slot given back at most once, and exactly once by a runner that is gone |
| `RunnerExit.JoinedRunnerCanAlwaysFinish` | internal/daemon/trees.go:282-290 | a runner being joined under the fence never waits uncancellably for it and always has a step of its own towards done |
| `RunnerExit.NobodyPushesRunnerBack` | internal/daemon/runners.go:422-451 | no step of anyone moves a cancelled runner away from done |
| `RunnerExit.StopCanAlwaysEnd` | internal/daemon/trees.go:259-291 | no deadlock: from every reachable state the stop's own steps and those of the runners it joins, none of which needs the fence, lead to its end |
| `RunnerExit.StopOutlastsWhatItLoaded` | internal/daemon/trees.go:270-291 | when a stop gives the fence back, each runner it loaded is cancelled, done, out of the registry and its slot given back |
| `RunnerExit.UncancelledExitIsFenced` | internal/daemon/run.go:178-241 | over every run, a runner nobody cancelled gives its slot back under the fence, unless the daemon closes or the lookup fails |
| `RunnerExit.ClosingRunnerNeedsNoFence` | internal/daemon/run.go:193-200 | whoever holds the fence, a runner that ends in a closing daemon leaves without it |
| `RunnerExit.LiveRunner.FinishFence` | internal/daemon/run.go:270-285 | in step with the other actors: an ended context releases the join before the second wait, and only then |
| `RunnerExit.LiveRunner.FinishRunner` | internal/daemon/run.go:178-241 | the exit path is a run of the machine among the other actors' steps; it is held up only waiting for the fence, and otherwise one slot went back, done was closed once and fence and registry are left |
| `ConfigCommit.ConfigDir.BackupConfig` | internal/configops/write.go:26-42 | the current document is copied under the stamp; a missing file needs no copy |
| `ConfigCommit.ConfigDir.PruneBackups` | internal/configops/write.go:46-74 | exactly the backups with twenty newer ones go, but for failed removals |
| `ConfigCommit.PrunableByPosition` | internal/configops/write.go:64-73 | in a sorted listing those are all but the last twenty |
| `ConfigCommit.ConfigDir.Commit` | internal/configops/configops.go:112-140 | backup, marker, config in that order; a failure writes none of the later ones |
| `ConfigCommit.ConfigDir.Rollback` | internal/configops/marker.go:87-106 | the marker's backup is restored, or the first config removed; a missing backup is an error |
| `ConfigCommit.ConfigDir.ResolvePending` | internal/configops/resolve.go:23-51 | keep, reject or roll back by the candidate's hash and the boot's error; what it tells is so (`TellsTheTruth`) |
| `ConfigCommit.ConfigDir.ClearPending` | internal/configops/marker.go:56-83 | only the marker it was given is removed |
| `ConfigCommit.ConfigDir.BootDaemon` | cmd/coagent/main.go:187-265 | a boot's effect on the disk, its verdict and whether the daemon comes up |
| `ConfigCommit.CommitIsAllOrPending` | internal/configops/configops.go:112-140 | before the marker's rename only backups change; from then on the marker names candidate and way back |
| `ConfigCommit.BootsLeadToTarget` | internal/configops/resolve.go:23-51 | from any disk, boots that deliver nothing keep marker and backups and leave the config they found or the one the marker leads back to |
| `ConfigCommit.PendingThroughBoots` | internal/configops/resolve.go:23-51 | any number of boots before delivery keep the apply pending and its way back as it was |
| `ConfigCommit.BootOfPendingApply` | cmd/coagent/main.go:187-265 | what any boot does to a pending apply: applied is told exactly when the candidate is on disk and started, a rollback exactly when this boot changed the config, nothing exactly when a file was unreadable or the candidate could not be undone; the marker goes exactly when the verdict lands |
| `ConfigCommit.RolledBackForGood` | cmd/coagent/main.go:231-265 | once rolled back every later boot leaves the whole disk as it is |
| `ConfigCommit.ApplyIsAtomicAcrossCrashes` | internal/configops/configops.go:110-140 | for every crash point, torn and failed backups included, any older marker and any undelivered boots: before the marker's rename nothing but the older apply has an effect, after it the config is the old or the new document, a failed boot returns to the old, applied means the new one booted and a rollback is final |
| `ConfigCommit.OlderApplyUndisturbedExactlyWhenNotOverwritten` | internal/configops/configops.go:112-140 | an apply that gets no marker leaves all boots of an older pending apply as they were if and only if it does not leave, under the name of that one's way back and while its config is on disk, something else than the name held |
| `ConfigCommit.BackupMovesTarget` | internal/configops/write.go:26-42 | where failing boots lead after a backup attempt, from the disk before it |
| `ConfigCommit.StampIsDangerousExactlyWhenPendingUnderIt` | internal/configops/write.go:26-42 | some failure under a stamp can disturb if and only if the pending apply's way back has that name and not everything is empty |
| `ConfigCommit.SameSecondDisturbs` | internal/configops/write.go:26-42 | a torn copy and a whole one under the older apply's name each change where it leads |
| `ConfigCommit.BackupSurvivesExactlyWhenNewest` | internal/configops/write.go:44-74 | after an applied change the way back exists if and only if pruning spares its name |
| `ConfigCommit.ClockBehindLosesTheWayBack` | internal/configops/write.go:64-73 | a disk on which an applied change cannot be rolled back |
| `ConfigCommit.RejectedRunsExactlyWhenOnlySyncFailed` | internal/configops/write.go:115-119 | after a rejection some boots lead to a daemon up on the candidate if and only if only the sync after its rename failed, or an older pending apply leads to that very document |
| `ConfigCommit.RejectedYetLive` | internal/configops/configops.go:129-135 | a rejected change a later boot runs on |
| `ConfigCommit.CommitTellsTheTruth` | internal/configops/configops.go:112-140 | a call that returns says applied if and only if the candidate is on disk, but for a failed sync |
| `ConfigApplier.Service.ClaimApply` | internal/configapply/configapply.go:57-68 | granted exactly when free |
| `ConfigApplier.Service.StageApply` | internal/configapply/configapply.go:274-289 | a candidate is staged exactly when the claim was granted |
| `ConfigApplier.Service.TakePendingApply` | internal/configapply/configapply.go:291-308 | a staged candidate of the session is taken and its call stays, or there is none |
| `ConfigApplier.Service.Resolve` | internal/configapply/configapply.go:310-319 | exactly the call goes, and an emptied session table with it |
| `ConfigApplier.Service.StageResult` | internal/configapply/configapply.go:321-326 | the call holds its result and nothing else |
| `ConfigApplier.Service.SettleStagedResults` | internal/configapply/configapply.go:181-246 | exactly the session's waiting results are settled, all of them unless a store fails |
| `ConfigApplier.Service.RunStagedApply` | internal/configapply/configapply.go:104-165 | a taken candidate ends committed, answered or withdrawn, and only a commit keeps the claim |
| `ConfigApplier.OverRuns` | internal/configapply/configapply.go:57-336 | the applier's invariant over every interleaving |
| `ConfigApplier.AtMostOneCandidate` | internal/configapply/configapply.go:57-81 | over all sessions one candidate at most is staged, held or committed, the claim is set whenever one is, and no commit is attempted after a successful one |
| `ConfigApplier.TakenEndsExactlyOnce` | internal/configapply/configapply.go:104-179 | every taken candidate is in one goroutine's hands or ended, exactly once, in one of three ways |
| `ConfigApplier.AnswerFindsItsCall` | internal/configapply/configapply.go:321-326 | a result always finds its call's table |
| `ConfigApplier.SnapshotIsSettled` | internal/configapply/configapply.go:181-246 | over every run of fresh calls, the results a snapshot finds, and no others, are settled once each and none comes back |
| `ConfigApplier.RefusedIsAnswered` | internal/configapply/configapply.go:104-165 | a candidate whose commit failed can only be answered |
| `ConfigApplier.ClaimLeaks` | internal/configapply/configapply.go:321-326 | a run that leaves the claim set with no candidate anywhere |
| `ConfigApplier.LeakedExactlyWhenStruck` | internal/configapply/configapply.go:274-336 | in every run, calls staged again included, the claim is set with no candidate anywhere if and only if some step answered, withdrew or settled a call under which a candidate was waiting |
| `ConfigApplier.LeakStays` | internal/configapply/configapply.go:57-68 | a leaked claim is never given back |
| `ConfigApplier.ClaimExactExactlyWhenCallsAreFresh` | internal/configapply/configapply.go:274-336 | the claim is set exactly while a candidate exists if and only if no call is staged twice |
| `Utf8.FirstLength` | internal/backgroundprocess/tail.go:198-201 | the length of a well-formed first sequence, whose other bytes are continuation bytes |
| `Utf8.WellFormedExactlyWhenEncoding` | internal/backgroundprocess/tail.go:198-201 | a byte string is well-formed if and only if it encodes a sequence of Unicode scalar values |
| `Utf8.LongestWellFormed` | internal/backgroundprocess/tail.go:198-201 | the longest well-formed prefix |
| `Utf8.TrimToWellFormed` | internal/backgroundprocess/tail.go:199-201 | dropping bytes from the end reaches it |
| `TailScan.ReverseLine.Add` | internal/backgroundprocess/tail.go:180-187 | the ring buffer holds the last bytes read and their number |
| `TailScan.ReverseLine.Captured` | internal/backgroundprocess/tail.go:189-196 | they come back in file order |
| `TailScan.ReverseLine.Render` | internal/backgroundprocess/tail.go:189-210 | the line as it is shown, whole or cut |
| `TailScan.Tail.AcceptLine` | internal/backgroundprocess/tail.go:151-172 | a line is taken exactly when both budgets allow it with its separator |
| `TailScan.ScanBlock` | internal/backgroundprocess/tail.go:50-69 | one block read backwards continues the split of the text, or the refused line decides the answer |
| `TailScan.ScanTailLines` | internal/backgroundprocess/tail.go:21-79 | for every content and block size: the newest lines in file order, each whole or, over the limit, the longest well-formed prefix and three dots, within both budgets; truncated exactly when one was left out, and then the next would break a budget |
| `TailScan.TailIsNewestThatFit` | internal/backgroundprocess/tail.go:21-79 | the specification of the scan means that, in terms of bytes |
| `TailScan.LinesAreUnique` | internal/backgroundprocess/tail.go:41-76 | the lines of a content: no newlines inside, joined they are the content, a last newline opens none; there are no others |
| `TailScan.ShownStandsFor` | internal/backgroundprocess/tail.go:189-210 | a shown line is the line, or for one over the limit the longest well-formed prefix of its first bytes and three dots |
| `TailScan.TailIsUnique` | internal/backgroundprocess/tail.go:21-79 | that answer is the only one |
| `TailScan.JoinOfSplit` | internal/backgroundprocess/tail.go:217-229 | joining the lines of a text gives the text, and no line holds a newline |
| `TailScan.SplitOfJoin` | internal/backgroundprocess/tail.go:217-229 | splitting joined lines gives the lines |
| `TailScan.WholeLineSuffix` | internal/backgroundprocess/tail.go:81-118 | with no limit, or one no line exceeds, the joined result is a whole-line suffix within the byte budget |
| `TailScan.LongLineIsCut` | internal/backgroundprocess/tail.go:198-207 | a longer line shows the longest well-formed prefix of its first bytes and three dots |
| `TailScan.JoinLines` | internal/backgroundprocess/tail.go:217-229 | the loop joins |
| `TailScan.TruncateTailToBytes` | internal/backgroundprocess/tail.go:262-286 | a whole-line suffix within the bytes, well-formed if the text is, and the longest such if and only if no line starts exactly at the cut |
| `TailScan.TruncateDropsALineThatFits` | internal/backgroundprocess/tail.go:276-283 | there the dropped line was the longest tail that fits |
| `ChatDelivery.DeliverRow` | internal/managerdelivery/chat.go:281-297 | a row counts as delivered exactly when silent, sent, or refused and replaced by a delivered notice |
| `ChatDelivery.ChatLoop.EnterChat` | internal/managerdelivery/chat.go:208-242 | the whole prelude is sent before the entry is acknowledged; undisturbed it enters or a call failed |
| `ChatDelivery.ChatLoop.Tail` | internal/managerdelivery/chat.go:244-279 | it returns quietly only after a read that found nothing |
| `ChatDelivery.ChatLoop.Pass` | internal/managerdelivery/chat.go:137-206 | every port call of a pass is a step of the machine, the others acting in between; with no failing call, undisturbed, it ends within three calls a row and a dozen more, and leaves the chat entered with every row behind the cursor, or no focus if the session is dead |
| `ChatDelivery.NoGapsNoReordering` | internal/managerdelivery/chat.go:137-297 | across failures, restarts and focus changes the deliveries since the entry snapshot, repetitions aside, are exactly the rows up to the cursor in id order, with at most the next one besides |
| `ChatDelivery.NoRowSkipped` | internal/managerdelivery/chat.go:244-297 | every row between snapshot and cursor was dealt with as its type demands |
| `ChatDelivery.EntryStartsWhereItsPreludeEnds` | internal/managerdelivery/chat.go:208-242 | over every run, while a cursor stands: its prelude was shown whole before, and it started at the newest row there was when the prelude was read |
| `ChatDelivery.PreludeIsPrelude` | internal/sessionstore/chat_store.go:160-206 | the prelude is the header and the newest three showable rows in id order |
| `ChatDelivery.LastIsNewest` | internal/sessionstore/chat_store.go:170-172 | the snapshot is the session's newest row |
| `ChatDelivery.CursorStepsRowByRow` | internal/sessionstore/chat_store.go:226-240 | under a standing focus the cursor moves forward one row of that focus at a time |
| `ChatDelivery.ResetOnlyWhenDrained` | internal/managerdelivery/chat.go:179-203 | the focus is given up only for a killed session all of whose rows the cursor has passed |
| `LspFraming.AcceptsExactlyGoodBlocks` | internal/lsp/client_reader.go:68-124 | exactly the header blocks within the limits that announce one length in range are accepted, with that length |
| `LspHeaders.AcceptsExactly` | internal/lsp/client_reader.go:68-124 | a header block is accepted as `n` if and only if it is fields of at most 4096 bytes, 16384 together, one of them Content-Length in any case with `n` between Unicode white space, from 1 to 16 MiB |
| `LspHeaders.RefusesExactly` | internal/lsp/client_reader.go:68-124 | it is refused with an error if and only if good fields are followed by what that error is for |
| `LspHeaders.ReadsExactlySpaced` | internal/lsp/client_reader.go:118-118 | trimming and reading gives a number if and only if that number, signed or with zeros, stands between white space |
| `LspHeaders.FrameIsText` | internal/lsp/client_writer.go:108-119 | a frame is the header text with the body's length, the empty line and the body |
| `LspFraming.FrameRoundTrip` | internal/lsp/client_writer.go:108-119 | a written frame reads back as its body, whatever follows, if and only if the body has 1 byte to 16 MiB |
| `LspFraming.FramesRoundTrip` | internal/lsp/client_reader.go:34-66 | reading concatenated frames gives the same bodies in order |
| `LspFraming.ValueOfDigits` | internal/lsp/client_reader.go:118-118 | a printed length parses to itself |
| `LspFraming.Reader.ReadHeaders` | internal/lsp/client_reader.go:68-102 | the header loop computes the accepted length, the rest, or the error |
| `LspFraming.Reader.ReadBody` | internal/lsp/client_reader.go:54-66 | one frame is consumed, or the error reported |
| `LspFraming.Pipe.WriteAll` | internal/lsp/client_writer.go:121-136 | however the writer splits its writes all is written, or a prefix and a failure |
| `LspFraming.Pipe.WriteFrame` | internal/lsp/client_writer.go:108-119 | a whole frame, or a prefix of one |
| `LspTransport.OutboundFrame.Start` | internal/lsp/client_writer.go:67-67 | the writer gets a frame exactly when it is not cancelled |
| `LspTransport.OutboundFrame.Cancel` | internal/lsp/client_writer.go:69-69 | a cancellation wins exactly when the frame is still queued |
| `LspTransport.PendingTable.Register` | internal/lsp/client_call.go:20-24 | a call gets a new, empty channel of its own |
| `LspTransport.PendingTable.CompletePending` | internal/lsp/client_pending.go:49-65 | a registered call is answered once; an unknown id is refused |
| `LspTransport.PendingTable.RemovePending` | internal/lsp/client_pending.go:67-74 | exactly the entry goes |
| `LspTransport.PendingTable.CleanupPending` | internal/lsp/client_pending.go:30-45 | every registered call gets the exit error and none is left |
| `LspTransport.OverRuns` | internal/lsp/client.go:132-169 | the transport's invariant over every interleaving |
| `LspTransport.OneMessageAChannel` | internal/lsp/client_pending.go:30-65 | each channel gets at most one message and every sender finds it empty |
| `LspTransport.NoCallStranded` | internal/lsp/client_call.go:11-73 | a waiting call has its answer, is being answered, or is in a table not yet drained |
| `LspTransport.EveryCallerCanGoOn` | internal/lsp/client.go:132-169 | every unfinished caller always has an enabled step that gets it on, the uncancellable wait included |
| `LspTransport.NobodyPushesCallerBack` | internal/lsp/client.go:132-169 | no step of anyone takes a caller further from its end, and each of its own, at most thirteen, brings it closer |
| `LspTransport.HelpLowersRank` | internal/lsp/client.go:132-169 | so does the step that gets it on |
| `LspTransport.EveryCallerFinishes` | internal/lsp/client_call.go:11-73 | from every reachable state each call comes to its response, error or cancellation within its rank of such steps, unless the channel is closed twice before |
| `LspTransport.CanceledIsNeverWritten` | internal/lsp/client_writer.go:45-61 | a frame whose cancellation won is never on the wire |
| `LspTransport.NothingAfterAFailedWrite` | internal/lsp/client_writer.go:33-65 | a broken frame is the last thing written, and no frame is written twice |
| `LspDelivery.QueuedFrameIsDelivered` | internal/lsp/client_writer.go:33-65 | in every state of every run with the writer up, a queued frame not cancelled gets onto the wire whole and its caller a good reply, within five writer steps a frame |
| `LspDelivery.EndedClientAnswers` | internal/lsp/client_pending.go:30-45 | once the stop or the process waiter has drained the table no waiting call is left in it |
| `LspDelivery.DrainEmptiesTheTable` | internal/lsp/client_pending.go:30-45 | a drain gives each registered call one error and takes it out |
| `LspTransport.ClosesTwice` | internal/lsp/client.go:217-229 | a run in which the writer's channel is closed twice |
| `LspTransport.ClosedTwiceExactlyWhenSetUpDuringTheEnd` | internal/lsp/client_writer.go:82-99 | in every run it is closed at most twice, and twice if and only if setup found the client exited and the stop found the channel made |
| `LspTransport.WhoCloses` | internal/lsp/client.go:217-229 | setup closes exactly when its own look finds the client exited, the stop exactly when it finds the channel made |
| `MarketplaceCache.CacheEntry.Clone` | internal/loader/marketplace_entry.go:38-52 | a new object with the same contents |
| `MarketplaceCache.CacheEntry.CoversAll` | internal/loader/marketplace_entry.go:28-36 | every requested plugin was scanned |
| `MarketplaceCache.CacheEntry.Wanted` | internal/loader/marketplace_entry.go:54-77 | the sources of the requested plugins, in order |
| `MarketplaceCache.CacheEntry.ScanPlugins` | internal/loader/marketplace_cache.go:141-158 | each missing plugin is scanned once, failing ones included |
| `MarketplaceCache.MarketplaceStore.Look` | internal/loader/marketplace_cache.go:164-184 | a fresh, covering entry answers; a remembered failure answers for its shorter time |
| `MarketplaceCache.MarketplaceStore.Scan` | internal/loader/marketplace_cache.go:123-161 | the entry to store is a new object; stored entries stay as they are |
| `MarketplaceCache.MarketplaceStore.Resolve` | internal/loader/marketplace_cache.go:92-119 | answer and new table of one whole resolve; only the table changes |
| `MarketplaceCache.ScanAgrees` | internal/loader/marketplace_cache.go:141-158 | an incremental scan keeps the entry equal to its scanned plugins' sources |
| `MarketplaceCache.CoveredAnswerIsDirect` | internal/loader/marketplace_entry.go:54-77 | a covering entry answers with the direct scan's sources |
| `MarketplaceCache.ResolveIsDirect` | internal/loader/marketplace.go:102-138 | a resolve keeps the cache sound and answers like the direct scan: of every requested plugin with a manifest its skills, and its agents or else its commands |
| `MarketplaceCache.CacheAgreesWithDirect` | internal/loader/marketplace_cache.go:92-119 | for any sequence of resolves and clock readings, contents unchanged where an answer rests on an earlier pull, every success has the direct scan's set of sources |
| `MarketplaceCache.EntriesComeFromPulls` | internal/loader/marketplace_cache.go:127-139 | re-scanning never renews an entry |
| `MarketplaceCache.AnswersAreFresh` | internal/loader/marketplace_cache.go:200-206 | no success outlives its TTL and no remembered failure the shorter of TTL and a minute |
| `MarketplaceCache.SameAsDirectMeans` | internal/loader/marketplace.go:102-138 | what the direct scan's sources are, by what the directories hold |
| `MarketplaceCache.SecondResolveIsFree` | internal/loader/marketplace_cache.go:92-119 | after a success, a resolve for the same URL and no more plugins within the TTL answers from the table, whatever disk and pull would say |
| `MarketplaceCache.FailureIsRemembered` | internal/loader/marketplace_cache.go:108-112 | after a failure one within the shorter of TTL and a minute fails from the table |
| `MarketplaceCache.PullTimeIsKept` | internal/loader/marketplace_cache.go:123-139 | an entry's age is that of its pull |
| `MarketplaceRuns.StoreIsResolve` | internal/loader/marketplace_cache.go:103-118 | what a lock holder stores is what a whole resolve at that moment would store and answer |
| `MarketplaceRuns.ResolvesAreSequential` | internal/loader/marketplace_cache.go:92-119 | for every interleaving, the re-check after the wait included, table and answers are those of a sequence of whole resolves |
| `MarketplaceRuns.EveryAnswerIsDirect` | internal/loader/marketplace_cache.go:92-119 | every success of a concurrent run has the direct scan's set of sources, contents unchanged where it rests on an earlier pull |
| `MarketplaceRuns.EveryAnswerIsFresh` | internal/loader/marketplace_cache.go:164-206 | every answer of a concurrent run that rests on an earlier pull is within its time to live |
| `MarketplaceRuns.OneScanAUrl` | internal/loader/marketplace_cache.go:215-222 | two resolves never scan one URL at once |
| `MarketplaceRuns.EveryResolveAnswers` | internal/loader/marketplace_cache.go:92-119 | a resolve answers at once from the table, or from wherever it and the others stand it can be answered |
| `SkillEnvelope.UnescapeOfEscape` | internal/loader/skill_envelope.go:44-44 | unescaping undoes escaping, whatever other entities mean |
| `SkillEnvelope.NameIsFound` | internal/loader/skill_envelope.go:37-42 | the first closing tag after an escaped name ends that name |
| `SkillEnvelope.SkillRoundTrip` | internal/loader/skill_invocation.go:67-91 | for every skill and arguments the rendered text gives back exactly one skill with its name and the whole text, if and only if the name is not empty |
| `SkillEnvelope.RenderedHoldsBody` | internal/loader/skill_invocation.go:67-91 | the rendered text is the escaped name and description and then the body: the content with the arguments in place of every placeholder, or under a heading behind it |
| `SkillEnvelope.ReplacingSplices` | internal/loader/skill_invocation.go:68-68 | replacing takes a text apart at every occurrence and joins the pieces around the other text |
| `SkillEnvelope.EscapeIsSafe` | internal/loader/skill_invocation.go:75-78 | escaped text has no bracket or quote, and every ampersand in it starts one of five entities |
| `SkillEnvelope.ExtractIsSound` | internal/loader/skill_envelope.go:22-58 | for any content every extracted skill has a name and its envelope is a piece of the content starting with the marker |
| `SkillEnvelope.RenderedSkillSegments` | internal/loader/skill_envelope.go:65-86 | the loop cuts the content at the batch headers of skill calls |
| `SkillEnvelope.FindEnvelope` | internal/loader/skill_envelope.go:32-54 | one segment's envelope, from start marker to last end marker |
| `SkillEnvelope.ExtractRenderedSkills` | internal/loader/skill_envelope.go:22-58 | the loop collects the envelopes of the segments in order |
| `SkillBatch.CallHeaders` | internal/tool/builtin/batch.go:198-201 | the header pattern finds each call's own header first, then those its output holds |
| `SkillBatch.HeaderLinesExactly` | internal/loader/skill_envelope.go:13-13 | a line is a header line if and only if it is `=== `, a name, ` (call `, digits and `) ===` |
| `SkillBatch.BatchIsCallByCall` | internal/loader/skill_envelope.go:65-86 | a batch's output gives what its calls' outputs give one by one, in order |
| `SkillCalls.DirectCallFoundExactlyWhenNoMarkerInName` | internal/session/step_tools.go:538-572 | a skill called directly is found again in the call's result, name and whole envelope, whatever its text quotes, if and only if no start marker is in its name |
| `SkillCalls.MarkerInNameLosesTheSkill` | internal/tool/builtin/skill.go:72-74 | a skill named like a start marker is not |
| `SkillCalls.TitleIsTransparent` | internal/session/step_tools.go:566-570 | a title line without header or start marker changes nothing about what any text gives |
| `SkillCalls.TitledExtract` | internal/tool/builtin/batch.go:208-213 | a skill call in a batch gives what its title and text up to the first header give, then what is under the headers in the text |
| `SkillCalls.SkillCallFoundExactlyWhenNoHeaderInside` | internal/loader/skill_envelope.go:22-86 | a skill call in a batch gives its skill back, name and whole envelope, if and only if its output holds no header line and its name no start marker |
| `SkillCalls.QuotedHeaderLosesTheSkill` | internal/loader/skill_envelope.go:65-86 | a skill whose text quotes a header line is not given back |
| `SkillCalls.SomeSkillIsLost` | internal/loader/skill_envelope.go:65-86 | one such skill: its content is a header line |
| `SkillCalls.OtherCallGivesNothing` | internal/loader/skill_envelope.go:65-86 | another call without header lines in its output, and a failed skill call, give nothing |
| `SkillCalls.BatchGivesAllSkillsBack` | internal/tool/builtin/batch.go:198-257 | a batch of skill calls, failed ones and others without header lines inside gives all its skills back in order and nothing else |
| `BatchOutput.TrimJoin` | internal/tool/builtin/batch.go:262-262 | trimming a concatenation trims its end, and what is before it only when the end is blank |
| `BatchOutput.OutputGivesAllSkillsBack` | internal/tool/builtin/batch.go:198-262 | so does its trimmed output, even when the last call shows nothing and its header loses its line end |
| `BatchOutput.ResultGivesAllSkillsBack` | internal/session/step_tools.go:538-572 | and so does what the conversation gets, with the batch's title line in front |

## Left out

- Process spawning, guardian pipes, file locks, signals and output files: only their outcomes appear, as events.
- SQL text, row scanning and migrations: conditional updates and constraints appear as guarded map updates.
- Language-model drivers, catalogs, MCP and git clients, sandbox mount plans: network or library code.
- LSP document versions and diagnostics, JSON decoding of frames: not needed by the transport.
- Configuration parsing and validation: startup validation is a boolean of each boot.
- Real time, backoff and deadlines: timers may fire at any step; clock readings are arbitrary integers.
- Budget policy, subagent and schedule stores beyond the calls named above.
- Power loss that drops an unsynced backup or reorders writes: a crash stops the process between or inside writes, and completed writes stay.
- Files that grow or shrink while a tail is scanned; the binary sniff of a tail.
- ProcessService.Service.FinalizeTracked: in the interleaving machine the retry loop and the release are one step, as the source holds its finalization lock across them.
- ProcessLedger.Store.InsertProcess: process ids are taken not to repeat across restarts; they carry a wall-clock stamp.
- ProcessService.CountersConserved: the three tracking maps of the source, always updated together, are one map.
- RunnerExit.LiveRunner.FinishRunner: delivering the run's outcome, draining the queue and restarting after the exit are left out; none of them touches the fence, the registry or `done` of this runner.
- ConfigApplier.TakenEndsExactlyOnce: a result is counted as given when it is staged; `SettleStagedResults` covers its delivery.
- ChatDelivery.NoGapsNoReordering: rows up to the entry snapshot are the entry's business, which shows the newest three.
- LspTransport.EveryCallerFinishes: the helping steps are enabled and lead to the end; that the scheduler takes them is not modelled.
- SkillEnvelope.SkillRoundTrip: HTML entities other than the five that escaping writes are an arbitrary table.
- SkillCalls.DirectCallFoundExactlyWhenNoMarkerInName: for names that hold no header line of a batch; so are the batch theorems. Results cut to a size budget are left out.
- BatchOutput.OutputGivesAllSkillsBack: the last tool's name has no `<`.
- SessionForest.SessionStore.StopTreeCleanup: the status writes of a cleanup; cancelled inputs, links and joined runners are left to the other parts.
- SessionForest.SessionStore.RecoverStoppingSessions: a store error stops it at a status write; errors of the calls between them would stop it at the same points.
- StoredStops.InvOverRuns: writers other than those named write single statuses, never stopping; they are one kind of step.
- MarketplaceCache.MarketplaceStore.Resolve: one resolve undisturbed; `MarketplaceRuns` interleaves them.

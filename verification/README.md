# Verified models of the durable core

This Dafny 4.11 project models the parts of the repository whose correctness is a matter of order, crashes and
concurrency, and proves what they promise. `dafny verify dfyconfig.toml` checks everything.

| files | what they model |
|---|---|
| `ProjectState`, `ProjectTransitions`, `ProjectChain` | the durable project record, every transition the project loop can hand to its store (with its cause), and legal histories of a run |
| `ProjectMoves`, `ProjectOutcome`, `ProjectCompletion`, `ProjectSignals` | over whole histories: how a run moves and whom it asks, what each record says of the transition behind it, which outputs a completed run lacks, and when a waiting run can be resumed |
| `ProjectSystem` | any number of loops interleaving over an atomic compare-and-swap register and stopping between any two steps, with the log of executor calls |
| `ProjectLoop`, `ProjectVisit` | the loop itself as a class over a checkpoint store class: write-ahead, executor call, outcome, resume signals; what a turn and an undisturbed run come to |
| `FileCheckpointStore`, `FileCheckpointLoad`, `FileCheckpointObject` | the file store's link, rename and unlink protocol as a step system; what a `load` can answer that opens one listed file after the other while others work; and `load` and `save` as a class over both |
| `NeedProposals`, `FairOrder`, `NeedPlan` | proposals, the rotating round-robin, planning a cycle and applying its delta |
| `NeedReplay`, `NeedRuns`, `NeedOutcome`, `NeedRestarts`, `NeedScheduler` | the scheduler as a journaled state machine, its runs, what solve outcomes give rise to, restarts that are exact and restarts that are not, and the scheduler class |
| `WipJob`, `WipRuns`, `WipTick`, `WipSupervisor` | hourly work-in-progress jobs as a step system against a shared recovery ref, their runs, when a tick pushes and when it succeeds, and the supervisor's tick |
| `WipDelta` | capture and restore of what differs from a base commit |
| `PathScope` | lexical path normalisation, globs and the scope test |
| `PlanGraph` | plan steps, tasks, their validators and the decomposition |
| `ProvenanceChain` | the provenance hash chain |

Each protocol has the same shape: a state, an `Action` for every step any participant can take, a total `Step` (an
action that does not apply changes nothing), and `Exec` over arbitrary sequences of actions, so that a lemma about
`Exec` speaks of every interleaving, crash and retry. Code that changes state is a class or a method with loops, proved
against a specification function; clocks, randomness, executors, Git and the network are parameters or actions.

## What does not hold as one might expect

Where a natural reading of the code is false, the code is modelled as it is, the failing case is exhibited, and the
exact condition is proved.

- A run can complete without a required output: `need-rag` returned by the first stage passes over research
  (`NeedRagFromUnderstandSkipsResearch`), and a policy hold placed before a stage ran, once let go ahead, passes over that
  stage (`PolicyHoldSkipsUnderstand`). A completed run lacks an output exactly if its stage was passed in one of these two
  ways and nothing made up for it (`CompletedRunLacks`, `CompletionLacks`).
- A run can wait for a signal that no one can give, in three ways: the default policy identity of a stage carries no
  revision, so a second policy hold on the stage is answered by no signal (`SecondPolicyHoldIsStuck`); after 10,000 consumed
  signals the decoder refuses every further one (`FullRunIsStuck`); and an identity that leaves no room for a verdict within
  the 4,096 bytes of a signal can be held but not decided (`LongPolicyIsStuck`). When exactly a wait can be resumed is stated
  by `PolicyWaitsResume`, `ApprovalWaitsResume`, `CapabilityWaitsResume`, `ReconciliationWaitsResume` and `TimedWaitsResume`.
- An executor can be called with no announcement stored, and a failed run can come back: when the record of the announcement
  is itself beyond the checkpoint ceiling, the loop fails the run and then calls the stage all the same, and what the stage
  returns is stored over the failure (`FailedRunComesBack`). `DispatchSafety` and `FailureIsFinal` say that this is the only way,
  holds placed from outside apart.
- A record is not storable when a budget pause is placed on a run that waits, when 10,000 signals are already consumed, or
  when a budget resume passes the safe integers (`UnstorableTransitions`; exact condition, with all cases, in `DecodableStep`).
- A load of the file store can answer that a run does not exist although it has a record at every moment, because it opens
  the files some time after it listed them (`LoadMissesTheRun`). It is exact unless a new revision is committed while it is
  going on (`QuietLoadFindsTop`).
- Two different file saves of one revision can both return normally (`LateLinkSucceeds`; exact condition in `LinkTakesEffect`).
- A scheduled proposal whose identity is longer than 4096 characters, as percent-encoding can make it, is lost by a restart
  (`LongIdentityIsLost`). A step survives a restart exactly if what it records is canonical, lists at most ten thousand
  entries and stays within the safe integers (`StepReplays`).
- A restart under a smaller limit of ready proposals can leave a backlog beyond its limit (`SmallerRestartOverflows`; exact
  condition of one admission in `AdmitOneOverflows`). Under limits that are no smaller it is exact (`WiderRestartIsExact`).
- A capture is stored in the locale's order of its paths and checked in the order of their characters. A worktree with a new
  `README.md` and a new `package.json` leaves a job record that no later tick can load, and the job never pushes
  (`TwoNewFilesAreStuck`, `UnloadableStays`). A record loads exactly if both orders agree on its paths (`RecordsLoad`).
- If the save of a verified job changes the record and yet reports an error (the directory sync or the release of the fence's
  lock fails), the failure handler can overwrite the verification and the job can push a second commit
  (`TwoCommitsForOneJob`; exact condition in `VerificationSurvives`).
- A restored capture fails its final check if a recorded file is larger than 4 MiB, although a capture may be configured to
  accept larger ones (`LargeFilesDoNotRestore`; exact condition in `RestorePasses`); unreported files come back with the
  permission of a fresh checkout (`RoundTrip`).

## Model

| member | source | states |
|---|---|---|
| ProjectStates.EffectIdNamesRevision | src/autonomy/project_loop.ts:329 | the revision stamped into an effect identity makes identities of different revisions of one run different |
| ProjectTransitions.DecodableStep | src/autonomy/project_state.ts:265-319 | the next record passes the decoder's checks of numbers, signals and between fields exactly when the transition meets the stated guards |
| ProjectTransitions.CountersStep | src/autonomy/project_loop.ts:399-415 | every transition keeps attempts consumed equal to the per-stage sum and within the run limit, and rework within its limit |
| ProjectTransitions.AttemptSumUpdate | src/autonomy/project_loop.ts:565-578 | counting one more attempt of a stage changes the total by exactly that attempt |
| ProjectTransitions.UnstorableTransitions | src/autonomy/project_state.ts:298-319 | three decodable records each have an open transition whose record the decoder refuses |
| ProjectChains.ChainSound | src/autonomy/project_loop.ts:507-539 | every record along a stored history is decodable, keeps its counters and sits at its own revision |
| ProjectChains.OutputsAreAccepted | src/autonomy/project_loop.ts:370-386 | every stored output was returned by a dispatched execution of its own stage |
| ProjectChains.StepsStep | src/autonomy/project_loop.ts:374-386 | the step budget rises only in a budget resume, by exactly what was added; an accepted result charges what it used, a throw or a cancellation one step, anything else nothing, never below zero |
| ProjectChains.StepsNeverRise | src/autonomy/project_loop.ts:302-316 | between any two revisions the budget never exceeds the earlier one plus what was granted in between |
| ProjectChains.SignalsAreSingleUse | src/autonomy/project_loop.ts:245-280 | no approval, policy, capability or reconciliation signal takes effect twice in a run |
| ProjectCompletion.PassStep | src/autonomy/project_loop.ts:384-415 | an earlier required output comes to be missing in one transition exactly if the transition passes over its stage |
| ProjectCompletion.MissingOutputsWerePassed | src/autonomy/project_loop.ts:255-274 | at any revision beyond a required stage its output is missing exactly if an earlier transition passed over the stage and no accepted return of the stage followed |
| ProjectCompletion.CompletedRunLacks | src/autonomy/project_loop.ts:460-477 | a completed run lacks a required output exactly if its stage was passed over and no accepted return of it followed; what it holds was accepted |
| ProjectCompletion.NeedRagFromUnderstandSkipsResearch | src/autonomy/project_loop.ts:394-398 | a run whose first stage asks for rag can complete without any research output |
| ProjectCompletion.PolicyHoldSkipsUnderstand | src/autonomy/project_loop.ts:207-210 | a policy hold on a stage that has not run, once let go ahead, lets the run complete without that stage's output |
| ProjectSignals.SignalsAreRemembered | src/autonomy/project_loop.ts:245-280 | the consumed signals of a record are exactly those of the transitions before it |
| ProjectSignals.PolicyWaitsResume | src/autonomy/project_loop.ts:266-271 | a policy wait can be resumed if and only if revision, signal count and identity leave room for the decision and no earlier policy decision of the run has a text that starts with the identity |
| ProjectSignals.ApprovalWaitsResume | src/autonomy/project_loop.ts:255-260 | an approval wait can be resumed if and only if revision, signal count and identity leave room for the decision and no earlier approval decision of the run has a text that starts with the identity |
| ProjectSignals.CapabilityWaitsResume | src/autonomy/project_loop.ts:229-254 | a signal can end a capability wait if and only if its retry limits last and the record has room for evidence not seen before; an admitted prepared execution can in any case |
| ProjectSignals.ReconciliationWaitsResume | src/autonomy/project_loop.ts:275-279 | a wait for news of an effect can be resumed if and only if the record has room for evidence not seen before |
| ProjectSignals.TimedWaitsResume | src/autonomy/project_loop.ts:241-247 | a retry wait can always be resumed, a budget pause if and only if the budget can still grow within the safe integers |
| ProjectSignals.SecondPolicyHoldIsStuck | src/autonomy/project_loop.ts:444-446 | a stage held, let go ahead, reworked and held again under the default policy identity leaves a run that no resume call resumes |
| ProjectSignals.FullRunIsStuck | src/autonomy/project_state.ts:304 | a run that consumed 10,000 signals and is then held for a policy is resumed by no call, though no policy decision was made |
| ProjectSignals.LongPolicyIsStuck | src/autonomy/project_state.ts:305 | a policy hold whose identity leaves no room for a verdict in a signal is resumed by no call |
| ProjectMoves.StageStep | src/autonomy/project_loop.ts:389-477 | a transition moves the stage to the least later one other than rag on an advance, a proceeding policy or a go-ahead, to rag on request, back on a counted rework to the named stage or else the one before, and never otherwise |
| ProjectMoves.CountersCount | src/autonomy/project_loop.ts:399-415 | at every revision the rework and retry counters equal how often the run was sent back and deferred, which never exceeds the limits |
| ProjectMoves.OnlyReworkOrRagGoesBack | src/autonomy/project_loop.ts:394-415 | a run returns to an earlier stage only by a counted rework or by asking for rag |
| ProjectMoves.RagOnlyOnRequest | src/autonomy/project_loop.ts:394-398 | a run comes to the rag stage only when a stage asks for it or by a counted rework |
| ProjectMoves.AdvancesInOrder | src/autonomy/project_loop.ts:470-476 | an advance goes on at the least later stage other than rag: from research and from rag to plan, from learn and from done to done |
| ProjectMoves.ApprovalIsAskedByPosture | src/autonomy/project_loop.ts:580-599 | over a whole run the posture never changes, and the run waits for approval exactly at the revisions whose transition asks under that posture |
| ProjectOutcomes.StatusStep | src/autonomy/project_loop.ts:389-456 | a record fails, pauses, completes or waits exactly for the listed transitions, and its wait carries their capability, authority, question, policy, effect or retry time by name |
| ProjectOutcomes.RecordsNameTheirCause | src/autonomy/project_loop.ts:507-539 | along a stored history every record's status and wait are those of the transition that stored it |
| ProjectOutcomes.OpenStep | src/autonomy/project_loop.ts:302-333 | the loop acts only on a running record with its stated stage and budget, an outcome only on its dispatched stage, and a hold at any time |
| ProjectOutcomes.ExecutorNames | src/autonomy/project_loop.ts:313-318 | a stage without executor parks the run under that stage's own name |
| ProjectSystem.InvExec | src/autonomy/project_loop.ts:326-347 | under any interleaving the register's history stays legal and every announced or running stage belongs to one loop |
| ProjectSystem.DispatchSafety | src/autonomy/project_loop.ts:326-347 | an executor call follows a committed checkpoint parked on exactly its effect, unless that checkpoint was too large, when it follows the failure of the run; no effect is called twice |
| ProjectSystem.OnlyTheAnnouncedOutputEnters | src/autonomy/project_loop.ts:507-539 | a stored output changes only by the outcome of the call dispatched at the revision before |
| ProjectSystem.FailureIsFinal | src/autonomy/project_loop.ts:519-530 | under any interleaving a failed run stays failed except by a hold from outside or by the outcome of a stage whose announcement was too large |
| ProjectSystem.FailedRunComesBack | src/autonomy/project_loop.ts:331-343 | a run failed for an oversized announcement has its stage called and goes on from what it returns |
| ProjectSystem.NoCallBeforeReconciliation | src/autonomy/project_loop.ts:275-280 | after process loss no sequence of run and resume steps calls an executor before the stored effect is reconciled |
| ProjectSystem.ProcessLossBlocks | src/autonomy/project_loop.ts:326-331 | losing every process while the newest announced stage is out leaves the run blocked on that effect |
| ProjectSystem.ReconciliationReleases | src/autonomy/project_loop.ts:275-281 | the matching reconciliation is enough for the stage to be announced and called again |
| ProjectSystem.AnyTransitionCanBeStored | src/autonomy/project_loop.ts:507-539 | at any moment a new process can load the newest record and store any open, storable transition, and nothing else changes |
| ProjectSystem.OversizedRunFails | src/autonomy/project_loop.ts:519-530 | a process whose next record is too large, before or behind a call, fails the run from the newest record |
| ProjectSystem.CompletionLacks | src/autonomy/project_loop.ts:459-464 | under any interleaving of loops, a completed record lacks a required output exactly if its stage was passed over, and what it holds was accepted |
| ProjectLoops.CheckpointStore.Create | src/autonomy/project_loop.ts:174-189 | a new run's first record starts its history, or nothing changes |
| ProjectLoops.CheckpointStore.Put | src/autonomy/project_checkpoint_store.ts:64-89 | a save of any record stores it exactly if it is decodable, expected, next and not too large, and changes nothing otherwise |
| ProjectLoops.CheckpointStore.Save | src/autonomy/project_checkpoint_store.ts:80-88 | a save of a transition of a held record extends that run's legal history or changes nothing, and a conflict means a newer record |
| ProjectLoops.CheckpointStore.OthersStore | src/autonomy/project_checkpoint_store.ts:64-89 | other loops' transitions are stored one after the other where they are open, decodable and small enough; every run's history stays legal and only grows |
| ProjectLoops.ProjectLoop.TransitionCheckpoint | src/autonomy/project_loop.ts:507-539 | the transition is stored, or the run is failed because exactly its record is too large, if and only if the record it follows is the newest, no effect region refuses it and one of the two can be stored; a newer record is reported instead |
| ProjectLoops.ProjectLoop.VisitStage | src/autonomy/project_loop.ts:326-386 | a visit announces or fails the run before it calls, calls nothing while an effect region is open and its executor otherwise, and leaves exactly the record the specification names, always if nothing disturbs it |
| ProjectLoops.ProjectLoop.Run | src/autonomy/project_loop.ts:297-336 | a run terminates, calls only dispatched stages, and ends in exactly the specified record and visits or reports the winner; undisturbed it reaches them and calls every visited stage that has an executor |
| ProjectLoops.ProjectLoop.Resume | src/autonomy/project_loop.ts:221-282 | a call that speaks to the wait appends exactly one answer in its own terms and, undisturbed, runs on from it to the specified end; a call that does not, or to a finished run, changes nothing |
| ProjectLoops.ResumeMeans | src/autonomy/project_loop.ts:229-281 | when a call speaks to a wait and what answers it: an approval or policy flag decides between going ahead and waiting for an alternative, evidence and effect must be its own and new, steps are added exactly, a retry is due at its time |
| ProjectVisits.ThrownTurnMeans | src/autonomy/project_loop.ts:345-356 | an executor that throws leaves its announced effect open, charges one step and keeps no output, even if the announcement was too large |
| ProjectVisits.CancelledTurnMeans | src/autonomy/project_loop.ts:357-362 | a result that arrives after a cancellation is thrown away and its effect stays open |
| ProjectVisits.ReturnedTurnMeans | src/autonomy/project_loop.ts:363-386 | a usable result is kept under its own stage and charged; an unusable one fails the run and changes nothing else |
| ProjectVisits.PlainRunCompletes | src/autonomy/project_loop.ts:299-464 | a fresh run with eight steps whose stages all advance, undisturbed, can store all its records, visits the eight stages other than rag in order and completes with exactly their outputs |
| ProjectLoops.OutcomeProgress | src/autonomy/project_loop.ts:379-386 | an outcome adds no steps, and one after which the run goes on has used at least one |
| FileCheckpointStores.InvExec | src/autonomy/project_checkpoint_store.ts:122-168 | every interleaving of file savers keeps directory entries consistent with the committed history |
| FileCheckpointStores.LoadFindsTop | src/autonomy/project_checkpoint_store.ts:97-120 | at any moment, however the directory is listed, its newest record is the newest committed one and nothing conflicts with it |
| FileCheckpointStores.LoadsAreMonotone | src/autonomy/project_checkpoint_store.ts:97-168 | from moment to moment the loadable revision never decreases and keeps one content while it is the newest |
| FileCheckpointStores.NewestMarkerSurvives | src/autonomy/project_checkpoint_store.ts:149-159 | the marker of the highest linked revision is never missing |
| FileCheckpointStores.LinkTakesEffect | src/autonomy/project_checkpoint_store.ts:148-153 | a successful link becomes what load returns if and only if its expected revision was still the loadable one |
| FileCheckpointStores.SuccessfulSavesAreCommitted | src/autonomy/project_checkpoint_store.ts:148-160 | without a late link every save that returned stored the one content of its revision |
| FileCheckpointStores.LateLinkSucceeds | src/autonomy/project_checkpoint_store.ts:148-159 | from any store holding a revision, two different saves of the next one can both return normally |
| FileCheckpointLoads.SlowLoadIsCommitted | src/autonomy/project_checkpoint_store.ts:97-120 | whatever happens between its reads, a load returns a record that was linked at its revision, and while no link came late the one content of it, without conflict |
| FileCheckpointLoads.QuietLoadFindsTop | src/autonomy/project_checkpoint_store.ts:97-120 | unless a new revision is committed while it is going on, a load returns exactly the newest record |
| FileCheckpointLoads.LoadMissesTheRun | src/autonomy/project_checkpoint_store.ts:99-111 | a load that opens its one listed file after a later save removed it answers that the run does not exist |
| FileCheckpointObjects.FileProjectCheckpointStore.Load | src/autonomy/project_checkpoint_store.ts:97-120 | lists, opens file by file while others act, and returns the newest record read or reports a conflict |
| FileCheckpointObjects.FileProjectCheckpointStore.Save | src/autonomy/project_checkpoint_store.ts:122-168 | a save returns normally exactly if it follows the newest revision and nobody has linked its own by the time it links; undisturbed, record, snapshot and markers are then exactly those of the new revision |
| NeedProposals.IdDeterminesProposal | src/autonomy/need_scheduler.ts:359-362 | an identity determines scope, kind and subject, so scopes never share one |
| NeedProposals.FormedMeans | src/autonomy/need_scheduler.ts:442 | a proposal is well formed if and only if its identity, rank and opt-in mark are those of its scope, kind and subject |
| NeedProposals.KindsComeInOrder | src/autonomy/need_scheduler.ts:351 | proposals order by kind, research first and training last, and within a kind by identity |
| NeedProposals.ListingUnique | src/autonomy/need_scheduler.ts:351 | the priority order sorts any collection of proposals in only one way |
| NeedProposals.SortedValues | src/autonomy/need_scheduler.ts:265-270 | reading a queue out returns exactly its proposals in priority order |
| FairOrders.RoundRobinServesQueues | src/autonomy/need_scheduler.ts:343-348 | the rounds serve every scope exactly its queue, in the queue's order |
| FairOrders.RoundRobinIsFair | src/autonomy/need_scheduler.ts:344-348 | in any prefix a scope is served at most once more than a scope that still waits |
| FairOrders.FairOrderServes | src/autonomy/need_scheduler.ts:333-350 | the fair order is a permutation of the proposals that keeps each scope's priority order |
| FairOrders.FairOrderIsFair | src/autonomy/need_scheduler.ts:339-350 | the order of a cycle is fair between scopes at every prefix |
| FairOrders.ScopesTakeTurns | src/autonomy/need_scheduler.ts:341-342 | the scopes come in their order in the first cycle, and in each next cycle the one that led has become the last |
| FairOrders.LeaderIsServedFirst | src/autonomy/need_scheduler.ts:341-348 | the scope whose turn it is is served first |
| FairOrders.ServeInTurns | src/autonomy/need_scheduler.ts:343-348 | the round loop terminates and serves exactly the rounds of the specification |
| FairOrders.FairOrder | src/autonomy/need_scheduler.ts:333-350 | queueing, sorting, rotating and serving give the fair order of the proposals |
| NeedPlans.SelectSplits | src/autonomy/need_scheduler.ts:160-172 | choosing splits the candidates that are not pending into taken and put back, both in order, within every limit |
| NeedPlans.PlacedWhenMet | src/autonomy/need_scheduler.ts:163-171 | a proposal is taken only if it was due with room for its kind when its turn came, and put back only if it was cooling down or there was no room |
| NeedPlans.NoPassingOver | src/autonomy/need_scheduler.ts:160-172 | a due proposal is never passed over for a later one of its kind |
| NeedPlans.PlanConserves | src/autonomy/need_scheduler.ts:148-194 | each candidate that is not pending is in exactly one of scheduled, deferred and evicted, and nothing evicted orders before anything retained |
| NeedPlans.PlanWithinLimits | src/autonomy/need_scheduler.ts:160-172 | a plan respects the cycle, kind, pending and cooldown limits |
| NeedPlans.PlanApplied | src/autonomy/need_scheduler.ts:196-215 | applying a planned delta stamps and queues exactly what was scheduled and leaves exactly the planned backlog |
| NeedPlans.StoredBacklogIsReturned | src/autonomy/need_scheduler.ts:139-146 | after a schedule the stored deferred queue of the scope equals the returned one |
| NeedPlans.ScheduleKeeps | src/autonomy/need_scheduler.ts:148-215 | a schedule keeps pending and deferred disjoint and pending within its limit in every scope, brings its own scope's backlog within the limit and lengthens no other |
| NeedReplays.PlanReplays | src/autonomy/need_scheduler.ts:300-311 | a planned delta has the same effect when read back if and only if it is recordable |
| NeedReplays.FirstDueIsFirst | src/autonomy/need_scheduler.ts:252-255 | the promoted proposal is due, and everything due in the backlog orders after it |
| NeedReplays.AckApplied | src/autonomy/need_scheduler.ts:257-262 | acknowledging frees one place and moves the first due proposal of the scope into it |
| NeedRuns.StepSucceeds | src/autonomy/need_scheduler.ts:139-263 | every accepted operation keeps the queues sound, touches its own scope only and stamps what it schedules |
| NeedRuns.StepReplays | src/autonomy/need_scheduler.ts:274-311 | one more operation is reproduced by a restart if and only if what it recorded is recordable |
| NeedRuns.RestoreRebuilds | src/autonomy/need_scheduler.ts:274-299 | replaying the journal of a run of recordable operations gives exactly the live state |
| NeedRuns.RestartIsExact | src/autonomy/need_scheduler.ts:274-311 | with canonical input and limits of at most ten thousand every run is reproduced exactly |
| NeedRuns.SchedulingsAreSpaced | src/autonomy/need_scheduler.ts:163-168 | two schedulings of one proposal are more than the cooldown apart, promotions included |
| NeedRuns.ScopesAreIsolated | src/autonomy/need_scheduler.ts:247-263 | in any reachable state an operation leaves every other scope's queues unchanged |
| NeedRuns.OutcomesCountOnce | src/autonomy/need_scheduler.ts:221-243 | over any run the tallies count every observed solve exactly once |
| NeedOutcomes.TalliesAreTheJournal | src/autonomy/need_scheduler.ts:221-225 | in any reachable state each tally equals the solves, and the failures, that the journal records for its scope and shape |
| NeedOutcomes.OutcomesCountWhenNew | src/autonomy/need_scheduler.ts:218-222 | in any reachable state an outcome counts if and only if its texts are valid and the journal records no outcome of its scope and solve |
| NeedOutcomes.OwnPendingIsAcknowledged | src/autonomy/need_scheduler.ts:247-252 | an acknowledgement counts if and only if its identity is a valid text and pending in the caller's own scope |
| NeedOutcomes.ScopeKeysAreScopes | src/autonomy/need_scheduler.ts:385 | a journaled scope is read if and only if it is the single-user scope or that of a valid tenant |
| NeedOutcomes.ListsAreRead | src/autonomy/need_scheduler.ts:447-458 | of a journaled list exactly the canonical proposals and the valid identities are read, and nothing of a list beyond its bound |
| NeedOutcomes.TenantMeans | src/autonomy/need_scheduler.ts:384 | a tenant is a valid text of at most 256 characters |
| NeedOutcomes.OutcomePlans | src/autonomy/need_scheduler.ts:226-243 | a failing outcome whose scope and shape failed before plans one cycle with exactly the evaluation-data proposal of that shape; every other outcome leaves cycle and queues alone |
| NeedRestarts.ReplayKeeps | src/autonomy/need_scheduler.ts:274-311 | whatever the journal holds, a restart leaves ready and deferred apart, every ready queue within the limit and no stamp ahead |
| NeedRestarts.AdmitOneOverflows | src/autonomy/need_scheduler.ts:199-204 | moving in a scheduled proposal takes a backlog beyond its limit exactly if ready queue and backlog are full and hold it not |
| NeedRestarts.ReplayWithinLimits | src/autonomy/need_scheduler.ts:196-215 | a restart from any journal keeps every backlog within its limit unless a proposal overflows on the way |
| NeedRestarts.WiderRestartIsExact | src/autonomy/need_scheduler.ts:86-94 | a restart under other limits is still exact if neither queue limit is smaller |
| NeedRestarts.SmallerRestartOverflows | src/autonomy/need_scheduler.ts:199-204 | two cycles recorded with room for two ready proposals, replayed with room for one, leave a backlog beyond its limit |
| NeedRestarts.LongIdentityIsLost | src/autonomy/need_scheduler.ts:300-311 | from the empty scheduler, a proposal with an identity over 4096 characters is scheduled and lost by a restart |
| NeedSchedulers.BoundedNeedScheduler.constructor | src/autonomy/need_scheduler.ts:86-94 | a new scheduler holds exactly what replaying its journal gives, and is in a valid state whatever the journal holds |
| NeedSchedulers.BoundedNeedScheduler.ReadyFor | src/autonomy/need_scheduler.ts:265-267 | a scope's ready queue is the listing of what it has pending |
| NeedSchedulers.BoundedNeedScheduler.ApplyScheduleDelta | src/autonomy/need_scheduler.ts:196-215 | the loops over removals, scheduled and added proposals apply exactly the specified delta |
| NeedSchedulers.BoundedNeedScheduler.PlanSchedule | src/autonomy/need_scheduler.ts:148-194 | the planning loops compute exactly the specified plan and change nothing |
| NeedSchedulers.BoundedNeedScheduler.CommitSchedule | src/autonomy/need_scheduler.ts:139-146 | a schedule journals its event and moves to exactly the next state of the machine |
| NeedSchedulers.BoundedNeedScheduler.OnOutcome | src/autonomy/need_scheduler.ts:218-245 | an accepted outcome is journaled as the decided event and moves to exactly the next state of the machine; any other changes and records nothing |
| NeedSchedulers.BoundedNeedScheduler.AcknowledgeFor | src/autonomy/need_scheduler.ts:247-263 | only a pending proposal of the scope can be acknowledged; anything else changes and records nothing |
| NeedSchedulers.BoundedNeedScheduler.Restore | src/autonomy/need_scheduler.ts:274-299 | restoring event by event gives the replayed state |
| WipJobs.InvExec | src/backup/hourly_wip_supervisor_v1.ts:459-503 | whichever writes fail and wherever processes crash, records keep their shape and captured order, processes agree with the disk, and pushes keep their commits' parents |
| WipJobs.ShapeMeans | src/backup/hourly_wip_supervisor_v1.ts:125-126 | a record's snapshot, preparation and commit are those of its stage, a failure lies on any stage with its first cause, and what is prepared is the record's own snapshot |
| WipRuns.HistoryOnlyGrows | src/backup/hourly_wip_supervisor_v1.ts:340-366 | every commit the recovery ref ever held is an ancestor of the one it holds now |
| WipRuns.LandedOnParent | src/backup/hourly_wip_supervisor_v1.ts:360-366 | a push that takes effect replaces its commit's own parent |
| WipRuns.PushesArePrepared | src/backup/hourly_wip_supervisor_v1.ts:477-489 | a push is issued only for a publication that is already in the durable record |
| WipRuns.VerifiedWasRead | src/backup/hourly_wip_supervisor_v1.ts:480-494 | a durable verification names a commit the ref held, and some read-back of the run found the ref at it with the prepared snapshot |
| WipRuns.RecordsLoad | src/backup/hourly_wip_supervisor_v1.ts:117-128 | a record on disk loads if and only if the locale and the characters sort its captured paths alike (and its files carry well-formed statuses) |
| WipRuns.UnloadableStays | src/backup/hourly_wip_supervisor_v1.ts:463-464 | once a record that does not load is on disk, its snapshot stays, it never loads again and the job pushes nothing more |
| WipRuns.TwoNewFilesAreStuck | src/backup/hourly_wip_supervisor_v1.ts:472 | a first tick over two new files that the two orders sort differently leaves such a record |
| WipRuns.FirstFailureStays | src/backup/hourly_wip_supervisor_v1.ts:495-500 | a durable first failure never changes |
| WipRuns.OneCommitPerJob | src/backup/hourly_wip_supervisor_v1.ts:459-503 | unless a verification save is ambiguous, a job pushes at most one distinct commit |
| WipRuns.VerifiedIsFinal | src/backup/hourly_wip_supervisor_v1.ts:465 | unless a verification save is ambiguous, a durable verification is never left |
| WipRuns.VerificationSurvives | src/backup/hourly_wip_supervisor_v1.ts:493-500 | after a verification save and the failure handler the verification is on disk exactly if it landed and was not overwritten |
| WipRuns.AmbiguityPushesAgain | src/backup/hourly_wip_supervisor_v1.ts:467-499 | from any point where a verification is saved, an ambiguous save can be followed by a push of a second commit |
| WipRuns.TwoCommitsForOneJob | src/backup/hourly_wip_supervisor_v1.ts:459-503 | from the start, a run with one ambiguous save pushes two different commits for one job |
| WipSupervisors.HourlyWipSupervisor.Tick | src/backup/hourly_wip_supervisor_v1.ts:459-503 | a tick coalesces, is clean or is verified exactly in the stated cases and fails in all others; verified means the prepared commit with the recorded snapshot is held, was read back and is on disk; its pushes are exactly those of its attempt |
| WipSupervisors.HourlyWipSupervisor.Attempt | src/backup/hourly_wip_supervisor_v1.ts:466-494 | an attempt ends verified if and only if capture, preparation, push or earlier landing, read-back, release and saves go well, and pushes exactly once when it gets there and the ref is not at the commit already |
| WipSupervisors.HourlyWipSupervisor.PushAndConfirm | src/backup/hourly_wip_supervisor_v1.ts:489-491 | if the fence allows it the prepared commit is pushed, once; it is confirmed exactly if the push returns with the commit landed and the ref is still at it when read back |
| WipTicks.CalmAttemptSucceeds | src/backup/hourly_wip_supervisor_v1.ts:467-494 | with nobody else acting and every answer good, an attempt that captures pushes one commit over what the ref held and is verified with the captured snapshot |
| WipTicks.CrashedJobStartsOver | src/backup/hourly_wip_supervisor_v1.ts:463-467 | a process lost at any step changes nothing else, and the next attempt begins from the durable record alone |
| WipDeltas.TwoRecords | src/backup/hourly_wip_supervisor_v1.ts:216-218 | Git reports a path twice exactly if its deletion is staged while the file is still there |
| WipDeltas.ReportMeans | src/backup/hourly_wip_supervisor_v1.ts:216 | what each letter of a Git status says of the path in base, index and worktree |
| WipDeltas.CaptureWip | src/backup/hourly_wip_supervisor_v1.ts:216-256 | a capture is clean, or records every change in the locale's order within all limits, or names the first fault met and where |
| WipDeltas.CaptureAccepts | src/backup/hourly_wip_supervisor_v1.ts:216-256 | a change list is recordable if and only if its paths differ, no path or content is vetoed or special, counts and sizes stay within the limits, and nothing ignored should have been seen |
| WipDeltas.CapturedWithin | src/backup/hourly_wip_supervisor_v1.ts:236-241 | what is captured holds no content above the file limit and no more than the total limit in all |
| WipDeltas.ItemMeans | src/backup/hourly_wip_supervisor_v1.ts:233-248 | an item holds the file unless its change deletes it and the index entry unless the path is untracked |
| WipDeltas.CapturedVerifies | src/backup/hourly_wip_supervisor_v1.ts:301 | what a capture recorded passes verification if and only if both orders sort its paths alike and its statuses are well formed |
| WipDeltas.StatusShapeMeans | src/backup/hourly_wip_supervisor_v1.ts:290 | a well-formed status is two of the nine letters, neither blank nor the mark of ignored paths |
| WipDeltas.ItemsAreExact | src/backup/hourly_wip_supervisor_v1.ts:233-248 | a recorded item holds exactly what index and worktree hold for its path |
| WipDeltas.RoundTrip | src/backup/hourly_wip_supervisor_v1.ts:429-441 | restoring a capture onto its base gives back the index and every content, and the whole worktree exactly if unreported files have checkout permissions |
| WipDeltas.RestoredStatus | src/backup/hourly_wip_supervisor_v1.ts:442-444 | Git reports the same changes after the restore as at the capture |
| WipDeltas.RestorePasses | src/backup/hourly_wip_supervisor_v1.ts:442-451 | the final check passes if and only if no recorded content exceeds the size it reads |
| WipDeltas.RestorableMeans | src/backup/hourly_wip_supervisor_v1.ts:445-450 | the final check of a path asks for the recorded contents and permission, plain and within 4 MiB |
| WipDeltas.LargeFilesDoNotRestore | src/backup/hourly_wip_supervisor_v1.ts:446-450 | with a file limit above 4 MiB, a larger file is captured, restored and then fails the final check |
| WipDeltas.RestoreWip | src/backup/hourly_wip_supervisor_v1.ts:429-452 | the restore loop sets exactly the recorded paths and its verdict is the final check |
| PathScopes.CanonicalIsRender | src/authz/path_scope.ts:64-67 | a canonical path is its normal form written down |
| PathScopes.CanonicalIsIdempotent | src/authz/path_scope.ts:64-67 | canonicalising twice changes nothing |
| PathScopes.TrailingSlashStays | src/authz/path_scope.ts:65 | normalisation keeps a trailing slash, and no other result but the root ends in one |
| PathScopes.CanonicalKeepsMeaning | src/authz/path_scope.ts:63-67 | a canonical path leads to the same place from every directory |
| PathScopes.CanonicalIffSameMeaning | src/authz/path_scope.ts:63-67 | two paths have one canonical form if and only if they lead to the same place from every directory |
| PathScopes.GlobMeaning | src/authz/path_scope.ts:45-52 | a string matches a glob if and only if it is the pattern with each star replaced by a run without slash |
| PathScopes.ScopeMeaning | src/authz/path_scope.ts:78-99 | a path above the root is never admitted; any other is admitted if and only if an entry is a star, or is a slashless glob its last segment fills, or the path lies under it segment by segment |
| PathScopes.StarredEntry | src/authz/path_scope.ts:41-52 | an entry with a star and no slash admits exactly the paths not above the root whose last segment is the entry with each star filled by a slashless run |
| PathScopes.PlainEntry | src/authz/path_scope.ts:90-98 | an entry with a slash or without a star admits exactly the paths not above the root that lie under it segment by segment |
| PlanGraphs.ValidatePlanSteps | src/autonomy/plan_stage.ts:168-188 | the step checks report nothing if and only if the listed steps are valid |
| PlanGraphs.StepIdMeans | src/autonomy/plan_stage.ts:175 | a step identity is a small letter and then one to 47 small letters, digits or hyphens |
| PlanGraphs.DistinctMeans | src/autonomy/plan_stage.ts:179 | a list has no duplicate if and only if it has as many members as entries |
| PlanGraphs.WhiteMeans | src/autonomy/plan_stage.ts:176 | a text is blank if nothing is left after trimming the language's white space |
| PlanGraphs.ValidPlansAreAcyclic | src/autonomy/plan_stage.ts:174-186 | following dependencies of a valid plan always leads to earlier steps |
| PlanGraphs.ValidateTasks | src/autonomy/decomposition_stage.ts:90-126 | the task validator reports nothing if and only if the task list is valid for the plan |
| PlanGraphs.TaskIdMeans | src/autonomy/decomposition_stage.ts:103 | a task identity is the word and two digits |
| PlanGraphs.TasksPreserveDependencies | src/autonomy/decomposition_stage.ts:118-124 | an accepted task list is a dependency-preserving bijection with the plan's steps |
| PlanGraphs.DecompositionPasses | src/autonomy/decomposition_stage.ts:128-142 | decomposing a valid plan passes the validator if and only if there are one to five criteria, identified and not blank where copied |
| PlanGraphs.CriteriaAreShared | src/autonomy/decomposition_stage.ts:131-137 | a task takes its objective from its step; the last task carries all criteria and every other the first |
| PlanGraphs.RootIsAdmitted | src/autonomy/decomposition_stage.ts:138-140 | a valid plan admits the task of its first step, which depends on nothing |
| PlanGraphs.ProjectedCriterionOk | src/autonomy/decomposition_stage.ts:44-49 | a projected criterion is acceptable if and only if it is identified and blank nowhere it is copied |
| ProvenanceChains.ChainProvenance | src/audit/decision_audit.ts:326-332 | sealing records one after the other gives a chain that verifies and carries the records in order |
| ProvenanceChains.VerifyProvenanceChain | src/audit/decision_audit.ts:337-347 | verification accepts exactly the linked chains, and otherwise names the first fault and its place |
| ProvenanceChains.TailFixesChain | src/audit/decision_audit.ts:326-347 | two verifying chains with one tail hash are equal seal by seal, or exhibit a collision or a preimage of the zero hash |
| ProvenanceChains.WitnessedPrefix | src/audit/decision_audit.ts:336-347 | a chain that ends in a hash kept from another chain is that chain up to there |
| ProvenanceChains.EditsShowInTail | src/audit/decision_audit.ts:309-324 | changing a sealed body and resealing what follows changes the tail hash |

## Left out

- Project loop: narration, spans, clock readings, jitter and memory-context checks; audit events on the spine.
- ProjectLoops.CheckpointStore.Save: keeps legal histories and therefore takes only transitions of a held record; the store's own save of any record is `Put`.
- ProjectLoops.ProjectLoop.Run: starts from a record the store holds or held, as `init`, `restore` and `resume` give it; a record made up by the caller is not modelled.
- ProjectTransitions.DecodableStep: models the decoder's checks of counts and safe integers, of number, size and difference of the signals, and between status and wait; byte limits of run identity, goal, notes and the texts of waits, depth limits and the strategy are not modelled.
- ProjectSignals.PolicyWaitsResume: like the other lemmas on waits, says when the record checks let a resume through; a record beyond the checkpoint ceiling or an open effect region can refuse it besides.
- ProjectSystem.DispatchSafety: an oversized announcement is failed from the record it follows; a revision that another process commits between the refusal and that failure is not modelled.
- Project artifacts other than stage outputs: the goal context, memory notice and the preparation and operation bindings; whether the host admits a prepared execution is an input of `Resume`.
- FileCheckpointObjects.FileProjectCheckpointStore.Load: takes the listing of names as one step; unsafe file kinds, malformed files and encryption are not modelled.
- Scheduler: turning signals into proposals, authorization and bindings, eviction digests, and the earlier event shape that carried a full deferred snapshot.
- NeedSchedulers.BoundedNeedScheduler.PlanSchedule: plans one scope at a time, as every caller does; the round-robin between scopes is modelled and proved for any number of scopes.
- Scheduler identifiers: the platform's encoding and orders are parameters, assumed to be injective; that a text is trimmed and its surrogates are well formed is one predicate.
- Work-in-progress jobs: time limits, pinned transports and repository workspaces on disk; commits are identified by number, and a job has one process at a time because its lock is held.
- WipRuns.RecordsLoad: of the checks on a stored snapshot, the order of its files and their statuses are modelled; digests, job identity, authority and vetoed paths are what the capture itself wrote.
- WipDeltas.CapturedVerifies: strings are sequences of characters, so the order by UTF-16 code units of characters beyond the basic plane is not modelled, nor paths that the locale does not tell apart.
- WipDeltas.RoundTrip: does not model nested paths that turn files into directories, symbolic links, submodules, unmerged entries or ignored files.
- Credential and exclusion patterns are one veto on captured items; their regular expressions are not modelled.
- Path scope: reporting unsupported patterns; and the regular-expression engine, whose meaning for these patterns is modelled directly.
- PlanGraphs.ValidatePlanSteps: says when there are reasons against a plan, not which; their texts are abbreviated. The same holds for `ValidateTasks`.
- Plans: grounding evidence, localization, generation metadata and the word lists, which are parameters; malformed and oversized JSON values are excluded by typing.
- Provenance: how a record is assessed, signing, and canonical serialisation, of which a record is taken as the result; the hash is a parameter and no property of it is assumed beyond its length.
- Wiring, exports, the command line and everything that calls models, the network or processes.

# Prime procurement agent: a verified model

This project models the decision-making core of an agent that takes part in on-chain "Prime" procurements, and proves
what holds of it over whole runs. `dafny verify dfyconfig.toml` checks the whole project.

The agent never signs anything. Automation inspects a procurement, drafts an application, and prepares unsigned
transaction packages; a person approves, signs and reports each submission. The state of one procurement is a directory:
`state.json` with a status, its history and an integrity hash, and artifact files beside it.

| files | content |
|---|---|
| `PhaseModel`, `PhaseClock` | status graph, chain phase derived from the clock, missed-window verdict |
| `ProcState`, `Integrity`, `Milestones` | the state file and its four ways of being written, the integrity hash, what every legal history looks like |
| `NextAction`, `ReviewGates`, `Handlers`, `Orchestrator` | the next-action engine, the fail-closed gates, and the orchestrator's handlers |
| `Operator`, `MonitorRefresh` | the two operator commands, and what the monitor does to one procurement |
| `Lifecycle`, `LifecycleSteps`, `LifecycleTheorems`, `LifecycleIntegrity` | runs that interleave all of these and may die after any write |
| `LifecycleProgress`, `MonitorOutcomes` | what one undisturbed call achieves, status by status, and exactly when |
| `LifecycleObjects` | the programs on a directory object, tied to those runs |
| `Commitments`, `StableJson`, `StableOrder`, `ReviewRoot` | binding encodings and canonical serialisation |
| `Chain`, `LogPaging`, `Monitor`, `Coverage`, `SweepCoverage` | block hashes, chunked log reads, event cursors under reorganisations |
| `Settlement` | reconciliation of winner evidence |
| `Archive`, `ArchiveSearch`, `Retention` | the capability archive and the pruning of job state files |
| `Strategy`, `StrategyEffects`, `Disputes` | the decision to apply, and disputes between validators |
| `Basics`, `Sorting` | shared vocabulary and a stable sort |

How the lifecycle is modelled: a directory is a map from files to contents; `Handlers`, `Operator` and `MonitorRefresh`
give for every step the list of writes it makes as a function of the files and of the answers of the outside world (clock,
chain, language model, pinning service, gates' clock). The methods in `Orchestrator`, `Operator` and `MonitorRefresh` work
on an object step by step, as the program does, and are proved to write exactly that list; the handlers at lines 254-606 of
`agent/prime-orchestrator.js` and the bundles of `agent/prime-artifact-builder.js` are methods of `Orchestrator` under the
same names. A run is a sequence of steps, each with the number of writes that survived, so a crash may follow any write.
The theorems speak of all such runs, and `LifecycleObjects.PerformStep` ties the running objects to them.

How the monitor is modelled: a block hash stands for the whole chain up to its block. A cycle reads the head, checks the
anchors, scans, tracks, advances, re-anchors and saves; each read can fail, events can fail half-way, and a restart
continues from the cursors last saved. The chain is fixed during one discovery and arbitrary between them.

Keccak-256 and the state hash are free constructors, so they never collide. The review root's SHA-256 is any pair of functions
with 64 hexadecimal digits as results; its theorems assume only that the inputs hashed for the two roots compared do not
collide, and `HypothesesAreMet` exhibits functions and packages that meet this. The packed layout is that of "Non-standard
Packed Mode" in the Solidity ABI specification; string escaping is that of section 7 of RFC 8259, as `JSON.stringify`
applies it.

## What the code does differently from what it says

The model follows the code in each of these.

- Every gate in `agent/prime-review-gates.js` calls `requireJsonFieldValue` (lines 93, 130, 159 and others), which no file
  defines. The reference error is caught by `checkGate`, so no gate ever passes. The model takes the helper as a parameter,
  `Undefined` or `Defined`, and the theorems hold for both; with `Undefined`, automation packages only the commit of a fresh
  draft, whose handler calls no gate (`PackagesAreBuiltInTheirWindow`, `InterruptedDraftIsStuck`).
- `writeFinalistBundle` resets the stake preflight to false just before the gate requires it to be true, so automation
  never builds a finalist package, helper or not (`FinalistGateNeverPasses`).
- The commitment material written by the orchestrator has neither subdomain nor proof, both of which the approval command
  demands for commit and reveal (`ApprovalNeverPackagesCommitOrReveal`).
- The approval command accepts two prior statuses that the transition table refuses, after rewriting the package
  (`ApprovalAcceptsTwoIllegalMoves`).
- The monitor's rollback of a submitted status is always refused (`RollbackNeverHappens`), and its refresh does not look at
  integrity errors: `RefreshIgnoresIntegrity` says exactly when it changes the status of a file, broken or not.
- The validator scoring run asks for a complete handoff in a status that is already READY, which the statuses it starts from
  never are, so it packages everything and then blocks itself (`PackagedIsGood`).
- A miss can be declared before the window has opened; `VerdictIsPrematureExactly` says when.
- The monitor can lose events: when a head rollback assigns a higher cursor, when a cursor is zero, when the read of a new
  anchor fails after the cursor moved, and when a provider refuses a final chunk of at most two blocks.
  `DiscoveryIsSafeExactly` is the exact condition, three lemmas give instances. The shortlist and winner scans look at the
  chain again without looking at the anchors; `SweepIsSafeExactly` is their exact condition.
- Winner evidence from an orphaned block is never dropped, so an orphaned higher block keeps the selection;
  `SelectionFollowsTheChainExactly` says when the selection is the current chain's.
- Two extractions for one procurement and phase within one millisecond share an item file but not an index entry
  (`ClockKeepsIdsApart`, `ExtractKeepsAgreementExactly`, `DisagreementsHappen`).
- The state hash guards the state file only; a draft entered by the operator's hand records no commitment, which is why
  `CommitRevealContinuity` is an equivalence; `HandDraftBreaksContinuity` is such a run.
- Retention archives a job without a usable timestamp as expired when the cap removed it (`ReasonIsWrongExactly`), and a
  dispute can be resolved again after it was resolved: `ResolutionChangesExactly` says when its resolution changes.

## Model

| member | source | states |
|---|---|---|
| `PhaseClock.PhaseNeverMovesBack` | `agent/prime-phase-model.js:119-135` | for arbitrary deadlines, a later clock reading never gives an earlier chain phase |
| `PhaseClock.CountdownIsExact` | `agent/prime-phase-model.js:141-154` | the countdown is the exact time to the next phase change, zero exactly once closed, and closed is final |
| `PhaseClock.WindowReportAgreesExactly` | `agent/inspect_prime_procurement.js:45-61` | the operator's window report agrees with the derived phase at every instant if and only if no window opens before an earlier deadline has passed |
| `PhaseClock.OrderedDeadlinesRaiseOneFlag` | `agent/inspect_prime_procurement.js:45-61` | for nondecreasing deadlines exactly the flag of the current phase is raised, none once closed |
| `PhaseClock.VerdictIsOutsideTheSpan` | `agent/prime-phase-model.js:324-339` | a miss is declared exactly outside the span of phases in which the awaited step is possible, before it as well as after it |
| `PhaseClock.MissedPhaseByPhase` | `agent/prime-phase-model.js:324-339` | the same read by phase: a miss is declared exactly where a status that can act in some phase cannot act in this one |
| `PhaseClock.VerdictIsPrematureExactly` | `agent/prime-phase-model.js:324-339` | a declared miss is premature (the awaited window is still to come) if and only if the phase lies before the span and the deadlines let the span open |
| `PhaseClock.SubmittedCommitIsMissedBeforeReveal` | `agent/prime-phase-model.js:329-330` | a commit submitted in time is declared missed while its commit window is still open |
| `ProcState.ProcDir.Put` | `agent/prime-state.js:51-55` | one atomic file write, appended to the log of writes |
| `ProcState.ProcDir.GetProcState` | `agent/prime-state.js:134-146` | a read reports an integrity error if one is recorded or the hash does not verify |
| `ProcState.ProcDir.GetOrCreateProcState` | `agent/prime-state.js:154-161` | an existing state is returned untouched, otherwise a hashed DISCOVERED state is written |
| `ProcState.ProcDir.SetProcState` | `agent/prime-state.js:172-192` | merges the patch; a changed status must be a legal next status or nothing is written |
| `ProcState.ProcDir.ForceSetProcState` | `agent/prime-state.js:202-227` | merges without a transition check and marks the history entry as forced |
| `ProcState.ProcDir.TransitionProcStatus` | `agent/prime-state.js:237-257` | needs a state and a legal move, writes status, history entry and fresh hash, else nothing |
| `ProcState.SetPatches` | `agent/prime-state.js:172-192` | a set stores every field given, keeps every other, enters a differing status as the last history entry, and is refused exactly on an illegal move |
| `ProcState.ForcePatches` | `agent/prime-state.js:202-227` | a forced set does the same without the check and marks the entry |
| `ProcState.TransitionPatches` | `agent/prime-state.js:237-257` | a transition needs a state and a legal move and always adds its entry |
| `Integrity.WrittenStateVerifies` | `agent/prime-state.js:106-123` | any sequence of state operations keeps an intact file intact, and what they write verifies |
| `Integrity.IntegrityErrorIsSticky` | `agent/prime-state.js:134-146` | once a read reports an integrity error, so does every read after any further set, transition or forced write |
| `Integrity.AlteredFileIsNeverTrustedAgain` | `agent/prime-state.js:106-257` | after an edit that leaves the stored hash alone and any further operations, reads are clean if and only if the edit changed nothing |
| `Milestones.HistoryNeverRepeats` | `agent/prime-phase-model.js:187-247` | a history of legal moves never enters a status twice and has at most 23 entries |
| `Milestones.TableReadBackwards` | `agent/prime-phase-model.js:187-220` | the statuses from which each status can be entered |
| `Milestones.TerminalExactly` | `agent/prime-phase-model.js:65-72` | the terminal statuses are exactly those nothing leads out of |
| `Milestones.LongestHistory` | `agent/prime-phase-model.js:187-220` | the bound is attained: every status on the way to DONE has a legal history with one entry per rank, DONE one with 23 |
| `Milestones.ValidatorStatusesAreUnreachable` | `agent/prime-phase-model.js:187-220` | no legal history contains a VALIDATOR status |
| `Milestones.GuardsWereVisited` | `agent/prime-phase-model.js:187-220` | a legal history at a status has been at every status guarding it |
| `Milestones.GuardsAreExactlyTheMilestones` | `agent/prime-phase-model.js:187-220` | the guards of a status are exactly the statuses that occur in every legal history ending in it |
| `Milestones.SelectedPassedEveryMilestone` | `agent/prime-phase-model.js:187-220` | SELECTED is preceded by the eight milestones from FIT_APPROVED to WINNER_PENDING, in order |
| `Milestones.CheckedWritesKeepLegalHistory` | `agent/prime-state.js:154-257` | whatever checked operations wrote the state, its history is legal and ends in its status |
| `NextAction.UnblockedActionIsInItsWindow` | `agent/prime-next-action.js:104-270` | an unblocked window-bound action is proposed only in its window, and then no miss is declared |
| `NextAction.ProposedExactly` | `agent/prime-next-action.js:72-403` | each of the sixteen actions is proposed if and only if status, flags and phase call for it, and a blocking reason is attached if and only if the agent waits or the action's window is shut |
| `NextAction.UrgentExactlyBeforeAChange` | `agent/prime-next-action.js:56-63` | the urgency flag is raised exactly when the chain phase changes within the next four hours |
| `ReviewGates.AssertCommitGate` | `agent/prime-review-gates.js:68-97` | passes if and only if the comparison helper exists, the commit window is open and every required artifact and value is there |
| `ReviewGates.AssertRevealGate` | `agent/prime-review-gates.js:109-136` | the same for the reveal: reveal window, salt, URI, hash and a passed verification |
| `ReviewGates.AssertFinalistAcceptGate` | `agent/prime-review-gates.js:143-168` | the same for finalist acceptance: acceptance window, packet, stake preflight and shortlisting |
| `ReviewGates.AssertTrialSubmitGate` | `agent/prime-review-gates.js:175-203` | the same for the trial: trial window, manifest with URI, publication record and a verified fetchback |
| `Orchestrator.AdvanceProcurement` | `agent/prime-orchestrator.js:93-179` | one call does to the directory exactly what the run model says, write by write; an integrity error or failed chain read writes nothing |
| `Operator.ApprovePrimeAction` | `agent/prime_approve_action.js:237-296` | does to the directory exactly what the run model says; once through, the status is the READY one of the action, legally entered, and the package holds what the files record |
| `Operator.MarkExternalAction` | `agent/prime_mark_external_action.js:47-126` | the same for marking; once through, the status is the SUBMITTED one of the action, legally entered, and the receipt is there |
| `Operator.ApprovalAcceptsTwoIllegalMoves` | `agent/prime_approve_action.js:29-62` | of the accepted prior statuses exactly two are refused by the transition table, after the package was rewritten |
| `Operator.ApprovalSucceedsExactly` | `agent/prime_approve_action.js:129-296` | without --force an approval goes through if and only if the status is one of five, the fields of the files are there and the encoding succeeds |
| `Operator.MarkingAReadyActionIsLegal` | `agent/prime_mark_external_action.js:47-126` | marking without --force goes through if and only if the transaction reference is well formed and the status is the READY one of the action |
| `MonitorRefresh.Discover` | `agent/prime-monitor.js:217-247` | a known procurement is left alone, a new one is created once and then inspected |
| `MonitorRefresh.RefreshProcurement` | `agent/prime-monitor.js:382-488` | one refresh does to the directory exactly what the run model says: terminal skip, rollback, miss, snapshot, validator scoring, sync |
| `MonitorRefresh.RollbackNeverHappens` | `agent/prime-monitor.js:389-416` | the rollback of a submitted status to its READY status is always refused: the refresh of a reorganised procurement writes nothing, and fails in exactly the five submitted statuses outside the validator role |
| `MonitorOutcomes.DiscoveryLeaves` | `agent/prime-monitor.js:217-247` | a known procurement is left alone, a new one is DISCOVERED with its job and one history entry, and inspected |
| `MonitorOutcomes.EventsMark` | `agent/prime-monitor.js:273-322` | a shortlist event marks the procurement shortlisted, a winner event records the selection, and neither changes anything else |
| `MonitorOutcomes.RefreshCompletesExactly` | `agent/prime-monitor.js:382-488` | a refresh goes through if and only if the procurement is live and not reorganised and the chain and its block can be read |
| `MonitorOutcomes.RefreshLeaves` | `agent/prime-monitor.js:437-478` | a refresh that goes through leaves snapshot, next action and reconciliation and records the sync |
| `MonitorOutcomes.PackagedRunLeaves` | `agent/prime-validator-scoring.js:119-161` | a scoring run whose gate passed leaves the assignment, every file of its package, and a blocking reason |
| `LifecycleSteps.FinalistGateNeverPasses` | `agent/prime-artifact-builder.js:311-318` | right after its own bundle the finalist gate cannot pass, whatever else is on disk |
| `LifecycleProgress.InspectionStep` | `agent/prime-orchestrator.js:254-269` | an undisturbed call moves a discovered procurement to INSPECTED, with its job and snapshot, if and only if the inspection goes through |
| `LifecycleProgress.FitStep` | `agent/prime-orchestrator.js:271-321` | an undisturbed call on an inspected, unevaluated procurement with a snapshot leaves the evaluator's answer in the fit file and fitEvaluated set; without a snapshot it is blocked |
| `LifecycleProgress.DraftStep` | `agent/prime-orchestrator.js:323-395` | an undisturbed call drafts and packages if and only if the commit window is open and agent, subdomain, retrieval, content, pinning and encoding are there |
| `LifecycleProgress.CommitStep` | `agent/prime-orchestrator.js:397-418` | an undisturbed call packages the stored commitment of a draft if and only if window, files, fit decision, commitment, helper and encoding are there |
| `LifecycleProgress.RevealStep` | `agent/prime-orchestrator.js:420-473` | an undisturbed call packages the stored URI and salt if and only if the reveal window is open and they open the stored commitment |
| `LifecycleProgress.FinalistStep` | `agent/prime-orchestrator.js:475-499` | an undisturbed call never moves a shortlisted procurement |
| `LifecycleProgress.TrialStep` | `agent/prime-orchestrator.js:501-584` | an undisturbed call ends in TRIAL_READY with the pinned URI packaged and archived if and only if everything it needs is there, else the trial stays in progress |
| `LifecycleProgress.ExecutionStep` | `agent/prime-orchestrator.js:586-606` | an undisturbed call starts the job of a selected procurement if and only if a job is linked and the selection confirmed |
| `LifecycleProgress.OtherwiseTheStateStays` | `agent/prime-orchestrator.js:131-174` | in every other status an undisturbed call leaves the state file alone |
| `LifecycleProgress.CallsLeaveCheckpoints` | `agent/prime-orchestrator.js:93-131` | a call on a broken or missing state or an unread chain writes nothing; any other leaves both checkpoints, and a dry run nothing else |
| `LifecycleProgress.HandoffsAreComplete` | `agent/prime-reconciliation.js:10-60` | a call that inspects, drafts, packages a reveal or packages a trial leaves every file the reconciliation requires of the status it enters |
| `LifecycleProgress.BundlesWrite` | `agent/prime-artifact-builder.js:107-424` | the files of each bundle by name, in the order in which they are written |
| `LifecycleProgress.HandlersWrite` | `agent/prime-orchestrator.js:271-606` | the same for what the handlers write around the bundles |
| `LifecycleProgress.DraftPassesItsGate` | `agent/prime-review-gates.js:68-97` | the files of a draft pass the commit gate if and only if the window is open, there is a URI and the fit evaluation was positive |
| `LifecycleProgress.GatesNeedEveryFile` | `agent/prime-review-gates.js:68-203` | no gate passes without every one of its files |
| `LifecycleSteps.DispatchIsGood` | `agent/prime-orchestrator.js:131-174` | whatever action is proposed, each write of its handler keeps the run invariant at the moment it happens |
| `LifecycleSteps.RunKeepsInv` | `agent/prime-orchestrator.js:93-179` | the invariant (legal history, credited authors, one commitment everywhere, reveal opens it) holds after every run, crashes after any write included |
| `LifecycleObjects.PerformStep` | `agent/prime-orchestrator.js:93-179` | running any of the programs on a directory left by a run leaves, after every single write, files that are again the outcome of a run and meet the invariant |
| `LifecycleSteps.PackagedIsGood` | `agent/prime-validator-scoring.js:150-161` | a scoring run that packaged everything still only records a blocking reason: the completeness it asks for is judged in READY statuses alone |
| `LifecycleTheorems.CommitRevealContinuity` | `agent/prime-orchestrator.js:323-473` | in every run, a procurement that was drafted has one and the same commitment of the stored URI and salt in state, commitment material, payload and commit package if and only if the orchestrator drafted it, which is if and only if the state file records a commitment |
| `LifecycleTheorems.HandDraftBreaksContinuity` | `agent/prime-state.js:172-192` | the failing side is reached: discovered, then inspected, approved and drafted by hand |
| `LifecycleTheorems.RevealOpensTheCommit` | `agent/prime-orchestrator.js:420-473` | a packaged reveal opens the packaged commit, and no other URI, salt or agent does |
| `LifecycleTheorems.CommitmentIsFrozen` | `agent/prime-artifact-builder.js:107-199` | a recorded commitment is the same after every continuation of the run: drafting never recurs |
| `LifecycleTheorems.HumanHardStops` | `agent/prime-orchestrator.js:93-179` | in every run an automated step leaves a READY status only to MISSED_WINDOW, and automation never enters FIT_APPROVED, SHORTLISTED, SELECTED, a SUBMITTED status or anything else outside a short list |
| `LifecycleTheorems.AtMostThreeChangesWithoutTheOperator` | `agent/prime-next-action.js:72-403` | in every run each status change has one author, and at most three consecutive ones are automation's |
| `LifecycleTheorems.ThreeChangesHappen` | `agent/prime-orchestrator.js:378-395` | three are possible: draft, package, missed window |
| `LifecycleTheorems.RunsKeepLegalHistory` | `agent/prime-state.js:172-257` | every run keeps an intact state with a legal history of at most 23 entries ending in the status |
| `LifecycleTheorems.PackagesAreBuiltInTheirWindow` | `agent/prime-orchestrator.js:397-584` | whatever the files hold, a commit, reveal or trial package is written only if its window was open at a time read in the same call; a finalist package never; with the helper undefined nothing but the commit of a fresh draft |
| `LifecycleTheorems.InterruptedDraftIsStuck` | `agent/prime-review-gates.js:68-97` | with the helper undefined, a draft interrupted between its status writes can only go to MISSED_WINDOW |
| `LifecycleTheorems.ApprovalNeverPackagesCommitOrReveal` | `agent/prime_approve_action.js:129-215` | in every run the approval command refuses commit and reveal: the material lacks subdomain and proof |
| `LifecycleIntegrity.OrchestratorRefusesBrokenState` | `agent/prime-orchestrator.js:99-106` | the orchestrator throws its integrity error, with nothing written, if and only if the read of the state reports one |
| `LifecycleIntegrity.TamperingIsNeverForgotten` | `agent/prime-orchestrator.js:93-106` | edit the state file at any point of any run: at every later point, whatever the monitor and the operator did since, the orchestrator refuses the procurement if and only if the edit changed a field |
| `LifecycleIntegrity.RefreshIgnoresIntegrity` | `agent/prime-monitor.js:382-478` | on any state file, broken or not, a refresh changes the status if and only if it is not reorganised, the chain was read, and a miss is declared there or by the scoring run after its window; then to MISSED_WINDOW |
| `Commitments.BigEndianRoundTrip` | `agent/prime-client.js:289-296` | a word decodes to the number it encodes |
| `Commitments.UnpackInvertsPack` | `agent/prime-client.js:289-296` | the packed layout uint256, address, string, bytes32 decodes uniquely |
| `Commitments.PackedLayout` | `agent/prime-client.js:289-296` | the byte positions of id, agent, URI and salt in what is hashed |
| `Commitments.CommitmentBinds` | `agent/prime-client.js:289-296` | a commitment determines procurement, agent, URI and salt |
| `Commitments.ScoreRevealOpensOnlyItsCommit` | `agent/prime-validator-engine.js:30-41` | a score reveal verifies if and only if it is the committed score and salt |
| `Chain.HashTellsSharedPrefix` | `agent/prime-client.js:238-242` | equal block hashes at a height mean equal chains up to it, and only they |
| `LogPaging.GetLogsPaginated` | `agent/prime-client.js:253-275` | a read returns if and only if every chunk is answered, or is refused with at most two blocks, or is refused and answered in both halves; what it returns is each block's logs once and in order up to the last block delivered |
| `LogPaging.ReturnsExactly` | `agent/prime-client.js:253-275` | whether a read returns depends on the number of blocks and the replies alone |
| `LogPaging.TailIsLostExactly` | `agent/prime-client.js:263-264` | blocks are lost silently if and only if the last chunk has at most two and its request is refused |
| `LogPaging.PagedReadsAreExact` | `agent/prime-client.js:253-275` | a read that returns holds each block's logs exactly once and in order up to the last block delivered, which is the last block asked for unless a refused final chunk of at most two blocks was skipped |
| `LogPaging.SkippedIsShort` | `agent/prime-client.js:263-264` | what can be skipped silently is at most the last two blocks |
| `LogPaging.WithoutRefusalsNothingIsSkipped` | `agent/prime-client.js:253-275` | without refusals nothing is skipped |
| `Monitor.PrimeMonitor.ReconcileReorgCursors` | `agent/prime-monitor.js:336-354` | anchors are checked in order; each mismatch rewinds its cursor; a failing hash read stops in between |
| `Monitor.PrimeMonitor.UpdateCursorAnchor` | `agent/prime-monitor.js:327-334` | anchors the block's current hash, block zero aside; the read may fail |
| `Monitor.PrimeMonitor.TrackEvents` | `agent/prime-monitor.js:217-247` | one record per new procurement, in event order, up to a failure |
| `Monitor.PrimeMonitor.DiscoverNewProcurements` | `agent/prime-monitor.js:193-251` | a discovery completes if and only if none of its reads and event handlings fails; cursors, anchors and records at every point at which it can stop |
| `Monitor.PrimeMonitor.SweepEvents` | `agent/prime-monitor.js:255-325` | the shortlist and winner scans go through if and only if nothing in them fails, and move their cursors and anchors the same way |
| `Monitor.PrimeMonitor.RunCycle` | `agent/prime-monitor.js:147-180` | a cycle stops at the first failure, the listing of states and the save included, and saves the cursors only at its end |
| `Monitor.DiscoveryCompletesExactly` | `agent/prime-monitor.js:193-251` | the condition under which a discovery completes, over the answers of the chain alone |
| `Monitor.SweepCompletesExactly` | `agent/prime-monitor.js:255-325` | the same for the two scans, and that each moves its own cursor only |
| `Monitor.CycleSavesExactly` | `agent/prime-monitor.js:147-180` | a cycle saves its cursors if and only if nothing in it fails |
| `Coverage.CursorsAfterDiscovery` | `agent/prime-monitor.js:193-251` | where a completed discovery starts and leaves each cursor: 24 blocks below the head, or rewound by a lower head or by its own anchor to 1024 blocks below |
| `Coverage.TrackingIsExact` | `agent/prime-monitor.js:217-247` | tracking adds exactly one record per unseen id, with the job of its first event, and keeps all others |
| `Coverage.GaplessDiscoveryCovers` | `agent/prime-monitor.js:193-251` | a gapless discovery leaves no event of the current chain up to its cursor without a record |
| `Coverage.DiscoveryIsSafeExactly` | `agent/prime-monitor.js:193-251` | a completed discovery misses nothing, whatever the unseen blocks hold, if and only if it resumes no later than the first unseen block and no short tail was refused, or nothing unseen lies below its cursor |
| `Coverage.GapLosesAnEvent` | `agent/prime-monitor.js:193-251` | with a gap there is a possible chain on which the completed discovery loses an event |
| `Coverage.ReorgSafeCoverage` | `agent/prime-monitor.js:147-354` | over every gapless run of extensions, reorganisations, failed cycles and restarts, after each completed discovery every creation event of the current chain in (start, cursor] has its record |
| `Coverage.BenignRunsMissNothing` | `agent/prime-monitor.js:147-354` | the same when at every cycle each detected reorganisation still leaves on the chain the scanned blocks up to its positive rewind target, a rolled back head's target is positive and skips no block that is off the chain, anchors can be read and no short tail is refused |
| `Coverage.HighForksMissNothing` | `agent/prime-monitor.js:147-354` | the same with the hypothesis on the reorganisations themselves: since the blocks were scanned each kept more blocks than any rewind target used after it |
| `Coverage.HighForkKeepsTheBase` | `agent/prime-monitor.js:336-354` | a reorganisation that keeps n blocks keeps the first n scanned blocks on the chain |
| `Coverage.ReorganisationWithLowerHeadIsBenign` | `agent/prime-monitor.js:193-203` | a reorganisation detected together with a head a few blocks lower is within the hypotheses |
| `Coverage.RecordsAreForever` | `agent/prime-monitor.js:217-229` | no step of a run removes or replaces a record |
| `Coverage.HeadRollbackLeavesAGap` | `agent/prime-monitor.js:197-203` | a rolled back head can push a lagging cursor past unscanned blocks |
| `Coverage.ZeroCursorLeavesAGap` | `agent/prime-monitor.js:205-207` | a cursor of zero restarts a thousand blocks below the head |
| `Coverage.StaleAnchorLeavesAGap` | `agent/prime-monitor.js:249-250` | if the anchor read fails after the cursor advanced, a fork between the two goes unnoticed |
| `SweepCoverage.SweepIsSafeExactly` | `agent/prime-monitor.js:255-325` | a completed shortlist or winner scan has handled every block up to its cursor, whatever the unseen blocks are, if and only if it resumes no later than the first unseen block and no short tail was refused, or nothing unseen lies below its cursor |
| `SweepCoverage.SweepGapLosesABlock` | `agent/prime-monitor.js:255-325` | with a gap there is a possible chain on which the completed scan passes over a block |
| `SweepCoverage.SweepsHandleEveryBlock` | `agent/prime-monitor.js:147-325` | over every run whose scans of one kind are gapless, each that goes through has handled, then or earlier, every block of its chain in (start, cursor] |
| `SweepCoverage.LateReorganisationLeavesAGap` | `agent/prime-monitor.js:255-354` | a reorganisation between the check of the anchors and the scan goes unnoticed |
| `Settlement.FirstInHighestBlockWins` | `agent/prime-settlement.js:13-23` | the verdict is that of the first-recorded evidence in the highest block |
| `Settlement.ConflictsAre` | `agent/prime-settlement.js:19-22` | the conflicting evidence is exactly the evidence for another winner, letter case aside |
| `Settlement.ReplaysChangeNothing` | `agent/prime-settlement.js:13-23` | recording already recorded events again changes nothing |
| `Settlement.OrderDoesNotMatter` | `agent/prime-settlement.js:13-23` | with distinct blocks any order of recording gives the same verdict |
| `Settlement.DetectWinnerDesignations` | `agent/prime-monitor.js:297-323` | the loop over the events, interrupted anywhere, leaves the states of all procurements as specified |
| `Settlement.SelectedExactly` | `agent/prime-monitor.js:309-322` | a procurement without earlier evidence ends up selected if and only if the first of its events in the highest block names us; each event is recorded with winner, block and finality at twelve blocks |
| `Settlement.EventsReachTheirProcurement` | `agent/prime-monitor.js:309-322` | each tracked procurement gets exactly its own events, in order, and is judged by all of its evidence; nothing else changes |
| `Settlement.RescansChangeNothing` | `agent/prime-monitor.js:308-322` | a rescan that meets events again, at any later head, leaves the selection as it was |
| `Settlement.OnlyAHigherBlockCorrects` | `agent/prime-settlement.js:13-23` | further evidence changes the selection if and only if some of it lies in a higher block than all that is known |
| `Settlement.SelectionFollowsTheChainExactly` | `agent/prime-settlement.js:13-23` | after reorganisations the selection is the current chain's if and only if no orphaned record lies in a higher block and the first record of the deciding block says the same |
| `Settlement.OrphanStaysSelected` | `agent/prime-settlement.js:13-23` | a winner designated in a block that was orphaned stays selected over one designated lower |
| `Settlement.TiesGoToTheFirstRecord` | `agent/prime-settlement.js:13-23` | within one block the order does matter |
| `StableJson.EscapedStringReads` | `agent/prime-validator-engine.js:6-14` | every string, lone surrogates included, is read back from its quoted form |
| `StableJson.ParseInvertsStable` | `agent/prime-validator-engine.js:6-14` | parsing the canonical text gives the value back, up to field order, and consumes all of it |
| `StableJson.SameMeaningSameText` | `agent/prime-validator-engine.js:6-14` | values equal up to field order at every depth print the same text |
| `StableJson.StableIsCanonical` | `agent/prime-validator-engine.js:6-14` | two values print the same text if and only if they are equal up to field order at every depth |
| `StableOrder.TextLeqIsCodeUnitOrder` | `agent/prime-validator-engine.js:11` | keys are compared by code units: a proper prefix first, else the smaller unit where they first differ |
| `StableOrder.StableTextAscends` | `agent/prime-validator-engine.js:6-14` | the text of a value is the plain JSON text of the same value with keys strictly ascending in every object at every depth |
| `StableOrder.EscapesAre` | `agent/prime-validator-engine.js:13` | how each code unit is written inside quotes |
| `ReviewRoot.ComputeReviewRootHash` | `agent/prime-tx-builder.js:80-97` | the loop over the bindings computes the specified root |
| `ReviewRoot.RootLinesAscend` | `agent/prime-tx-builder.js:80-97` | what is hashed: a line per binding with its name and digest or MISSING, in ascending code unit order, then the calldata line, joined by bars |
| `ReviewRoot.ReviewRootBindsExactly` | `agent/prime-tx-builder.js:80-97` | two packages have the same root if and only if they bind the same files with the same content or absence, in whatever order, and the same calldata, unless inputs hashed for the two collide |
| `ReviewRoot.AnyChangeShows` | `agent/prime-tx-builder.js:80-97` | for one list of names the root changes exactly when a bound file or the calldata does, under the same proviso |
| `ReviewRoot.HypothesesAreMet` | `agent/prime-tx-builder.js:80-97` | the hypotheses of both results are met by actual 64-digit hashes and two packages, whose roots differ |
| `Archive.CapabilityArchive.ExtractSteppingStone` | `agent/prime-retrieval.js:151-240` | an item without a procurement is refused; otherwise item file, stepping stone and index entry are written under the id made of source, procurement, phase and clock |
| `Archive.ClockKeepsIdsApart` | `agent/prime-retrieval.js:151-180` | two extractions for one procurement and phase get different ids if and only if the clock moved between them |
| `Archive.CapabilityArchive.UpdateArchiveOutcome` | `agent/prime-retrieval.js:363-395` | the report goes into every entry of the id, then into the item file; an unknown id changes nothing |
| `ArchiveSearch.ReportReachesItsEntries` | `agent/prime-retrieval.js:363-380` | every entry of the id carries what was reported and nothing else changes |
| `Archive.CapabilityArchive.SearchArchive` | `agent/prime-retrieval.js:57-75` | filter, score, filter, sort, slice as specified |
| `ArchiveSearch.HitsAreMentions` | `agent/prime-retrieval.js:30-43` | a keyword occurring, case aside, in title, summary, a tag, phase, domain or deliverable type is a hit; a keyword without a space is a hit in no other case |
| `ArchiveSearch.KeywordScoreCounts` | `agent/prime-retrieval.js:41-43` | the keyword score is the number of keyword positions that hit |
| `ArchiveSearch.ScoreBreaksDown` | `agent/prime-retrieval.js:41-55` | one per hit, five for acceptance, twice a positive quality or outcome score |
| `ArchiveSearch.SearchFindsExactly` | `agent/prime-retrieval.js:57-76` | while there is room an entry is returned if and only if it is in the index, of the phase by field or tag, and hit by a keyword, accepted or of positive quality |
| `ArchiveSearch.MentionedIsFound` | `agent/prime-retrieval.js:57-76` | an entry of the phase one of whose fields mentions a keyword is returned whenever there is room |
| `Archive.ExtractKeepsAgreementExactly` | `agent/prime-retrieval.js:169-235` | extraction keeps index and items in agreement if and only if no entry of that id says something else |
| `Archive.InterruptedUpdateBreaksExactly` | `agent/prime-retrieval.js:379-391` | an update that dies between its writes breaks the agreement if and only if it reported something new |
| `Archive.DisagreementsHappen` | `agent/prime-retrieval.js:169-391` | both failures happen: two extractions under one id, and an update that dies between its writes |
| `Archive.IndexAgreesWithItems` | `agent/prime-retrieval.js:151-395` | after any updates and any extractions under fresh ids, interrupted or not, every index entry has an item with equal fields |
| `Archive.SearchSeesTheItems` | `agent/prime-retrieval.js:57-75` | searching the index is searching the item files |
| `Archive.CandidatesAre` | `agent/prime-retrieval.js:57-71` | the candidates are exactly the scored entries of the phase that qualify |
| `Archive.SearchReturnsTheBest` | `agent/prime-retrieval.js:65-75` | at most maxResults, best first, nothing omitted that scores higher, nothing omitted while there is room |
| `Archive.TiesKeepIndexOrder` | `agent/prime-retrieval.js:72` | entries of equal score keep their index order |
| `Archive.RankingRewards` | `agent/prime-retrieval.js:41-54` | keyword hits, acceptance and positive quality each raise the score and none lowers it |
| `Archive.AcceptanceOutranks` | `agent/prime-retrieval.js:45-54` | acceptance outweighs up to four keyword hits |
| `Retention.StateStore.PruneStateFiles` | `agent/state-retention.js:48-110` | the files left, the count and the archive entries are exactly those of the specified choice |
| `Retention.ChooseExpired` | `agent/state-retention.js:62-70` | the first loop chooses exactly the finished jobs past their time to live |
| `Retention.ChooseRemovals` | `agent/state-retention.js:56-84` | the two loops choose exactly the specified set |
| `Retention.StateStore.RemoveFiles` | `agent/state-retention.js:86-100` | every chosen job is archived with its reason and its file deleted, no other |
| `Retention.OnlyFinishedJobsGo` | `agent/state-retention.js:56-84` | only finished jobs go, and every finished one past its time to live goes |
| `Retention.AgeDecides` | `agent/state-retention.js:56-84` | a finished job with a timestamp more than the time to live ago goes whatever the cap; without a cap no other goes; without either nothing does |
| `Retention.FinishedStatuses` | `agent/state-retention.js:7-16` | the eight finished statuses, letter case aside |
| `Retention.CapIsMetAndNoMore` | `agent/state-retention.js:72-84` | with a cap, either it is met or no finished job is left, and it takes no job more than needed |
| `Retention.CapTakesTheOldest` | `agent/state-retention.js:75-83` | no finished job that stays is older than one the cap took |
| `Retention.ReasonIsWrongExactly` | `agent/state-retention.js:90-96` | the archived reason is wrong exactly for jobs without a usable timestamp while a time to live is set |
| `Retention.SomeReasonIsWrong` | `agent/state-retention.js:72-96` | such a job is archived: two failed jobs without a timestamp and a cap of one |
| `Strategy.ComputeDifficulty` | `agent/strategy.js:238-265` | the accumulated difficulty is the clamped sum of its penalties and rebates |
| `Strategy.ComputeCapability` | `agent/strategy.js:267-286` | the same for capability |
| `Strategy.ComputeWinProbability` | `agent/strategy.js:288-305` | the same for win probability |
| `Strategy.ComputeExecutionConfidence` | `agent/strategy.js:307-319` | the same for execution confidence |
| `Strategy.EvaluateJobStrategy` | `agent/strategy.js:375-421` | the decision is that of the specification |
| `Strategy.ScoresImprove` | `agent/strategy.js:238-328` | when no signal gets worse every score moves in favour of applying, the win probability up to a rebate of 0.08 |
| `Strategy.ScoresAreProportions` | `agent/strategy.js:95-97` | every score lies between zero and one |
| `Strategy.DecisionIsMonotone` | `agent/strategy.js:375-421` | for any thresholds, a job that would be taken is still taken when it pays more or any other signal improves |
| `Strategy.WinProbabilityCanDrop` | `agent/strategy.js:288-305` | the win probability alone drops when the payout reaches 100000 |
| `StrategyEffects.FirstObjectionSpeaks` | `agent/strategy.js:330-372` | the skip reason is that of the first check, in turn, that objects, and there is none if and only if no check objects |
| `StrategyEffects.TakenExactly` | `agent/strategy.js:375-421` | a job is taken if and only if no check objects, the confidence reaches its threshold and the expected value 0.35 |
| `StrategyEffects.Hardens` | `agent/strategy.js:238-265` | the difficulty of an unremarkable job with each signal of its own |
| `StrategyEffects.Suits` | `agent/strategy.js:267-286` | its capability with each signal of its own |
| `StrategyEffects.WinsMoreOrLess` | `agent/strategy.js:288-305` | its win probability with each signal of its own |
| `StrategyEffects.ExecutesMoreOrLess` | `agent/strategy.js:307-319` | its execution confidence with each signal of its own |
| `StrategyEffects.PayoutSteps` | `agent/strategy.js:147-158` | the steps of the payout score |
| `Disputes.DetectDisputes` | `validation/dispute-resolver.js:40-67` | the disputes are exactly those of the pairs of scores more than the threshold apart, each CRITICAL if and only if the difference exceeds twice the threshold, row by row |
| `Disputes.DisputesDescribePairs` | `validation/dispute-resolver.js:49-62` | what each dispute says: both validators and scores, the difference, the severity |
| `Disputes.ValidScoresAre` | `validation/dispute-resolver.js:45` | the scores compared are those of the records with a score, in order |
| `Disputes.EachPairOnce` | `validation/dispute-resolver.js:49-64` | each unordered pair above the threshold is listed exactly once and no other pair is |
| `Disputes.DetectionIsARangeTest` | `validation/dispute-resolver.js:40-67` | among two or more scores a dispute is detected if and only if largest minus smallest exceeds the threshold |
| `Disputes.CriticalIsNeverAlone` | `validation/dispute-resolver.js:40-67` | one critical dispute among n scores implies at least n - 1 disputes |
| `Disputes.DisputeFile.OpenDispute` | `validation/dispute-resolver.js:74-102` | a PROPOSED record with the initial evidence, if any |
| `Disputes.DisputeFile.CollectDisputeEvidence` | `validation/dispute-resolver.js:104-137` | refused without a record or in a terminal status; otherwise evidence, status and timeline are extended |
| `Disputes.CollectionExactly` | `validation/dispute-resolver.js:104-137` | evidence is refused exactly without a record and in the three terminal statuses, and otherwise joins the record |
| `Disputes.DisputeFile.ResolveDispute` | `validation/dispute-resolver.js:139-164` | refused only without a record |
| `Disputes.RecordFollowsItsTimeline` | `validation/dispute-resolver.js:74-164` | over all runs: timeline PROPOSED EVIDENCE_COLLECTING* RESOLVED*, status of its last event, resolution of the last RESOLVED, evidence in order of submission |
| `Disputes.ResolutionChangesExactly` | `validation/dispute-resolver.js:139-164` | in every run one more operation changes the recorded resolution if and only if it resolves to another decision, resolved before or not |
| `Disputes.ResolvedCanBeResolvedAgain` | `validation/dispute-resolver.js:139-164` | a resolved dispute refuses evidence and can be resolved again to another decision |
| `Disputes.EvidenceCountIsExact` | `validation/dispute-resolver.js:184-206` | the packet's evidence count is the initial evidence plus the collecting events |

## Left out

- CommitRevealContinuity: runs contain every legal status and every field but the commitment that the operator can set by hand, and both operator commands, but not `forceSetProcState` nor the scripts that write state or commitment files outside the state functions.
- HumanHardStops: the same runs; a forced status can of course be anything.
- RevealOpensTheCommit: assumes the commitment is the orchestrator's, as `CommitRevealContinuity` establishes it.
- CountdownIsExact, UrgentExactlyBeforeAChange: for clock readings that are not negative; below zero a closed procurement's countdown is positive.
- PackagesAreBuiltInTheirWindow: the window is read by the next-action engine or by the gate, at two clock readings of one call.
- BenignRunsMissNothing, HighForksMissNothing: also need that the hash of a new anchor can be read and that no short tail is refused; without either the statement is false, as `StaleAnchorLeavesAGap` and `DiscoveryIsSafeExactly` show.
- ReviewRootBindsExactly, AnyChangeShows: collisions among the inputs actually hashed are excluded, as they must be of any fixed-length digest; for file names without the separator `|`, as all names in the repository are.
- StableIsCanonical: JSON values only; `undefined`, functions and non-finite numbers are outside JSON, and a number is represented by its shortest decimal text.
- ScoreRevealOpensOnlyItsCommit: integer scores, which is what the scoring produces.
- DecisionIsMonotone: real arithmetic, no floating-point rounding; the signals are inputs, the pattern matching that finds them is not modelled.
- SearchArchive: real scores, and lower case for ASCII letters only.
- HitsAreMentions: a keyword with a space may also match across two joined fields, as it does in the source, so its converse is for keywords without one.
- SelectedExactly: from a procurement without earlier evidence; with it, `EventsReachTheirProcurement` and `OnlyAHigherBlockCorrects` apply.
- Hardens, Suits, WinsMoreOrLess, ExecutesMoreOrLess: one signal at a time on an unremarkable job; how they add up is the contract of the four scoring methods.
- DraftStep, TrialStep and the other steps: one call that nothing interrupts; interrupted calls are the subject of the run theorems.
- ReconcileWinnerEvidence: winners are hex addresses, so lower case for ASCII letters is enough; block numbers are numbers.
- PruneStateFiles: the configured limits are natural numbers; the second pruning function in `agent/state.js` is not modelled.
- SweepsHandleEveryBlock: a scan counts as having handled the blocks it read; what one shortlist or winner event then does to a procurement is a step of the lifecycle runs and of `Settlement`.
- Dispatch: the completion action, whose handler is not part of this model; no state and clock ever propose it (`CompletionIsNeverProposed`).
- ApprovePrimeAction: hashes and salts are well formed by type, so the normalisation of malformed ones for the fixture procurement 1001 has nothing to do; outside it a malformed value is one of the failures `encodingOk` stands for. A proof is a list of strings.
- RefreshProcurement: scores, evidence and the commitment check of the scoring run are not part of this model, only its files, its state writes and the points at which it can stop.
- Orchestrator steps and monitor cycles of different procurements do not interact and are modelled one procurement at a time; two processes that overwrite each other's update are not modelled.
- Timestamps, deadlines warnings, review logs, receipts and audit logs are kept as uninterpreted text.
- Language model, pinning, RPC and file system calls are outcomes chosen by the environment.
- The completion gate and the conditions of the two validator gates; whether a validator gate passes is chosen by the environment.
- The first-generation job pipeline, locking, mission control, audits, prompts and content templates.
- ABI encoding of calls beyond the packed commitment.

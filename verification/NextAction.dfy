/** The next-action engine: from local state, deadlines and clock to the one action to take. */
module NextAction {
  import opened PhaseClock
  import opened PhaseModel
  import opened ProcState

  datatype Action =
    | Nothing | TerminalReached | Inspect | EvaluateFit | DraftApplication | BuildCommitTx | BuildRevealTx
    | CheckShortlist | BuildFinalistTx | BuildTrial | WaitScoring | CheckWinner | ExecuteJob
    | BuildValidatorScoreCommitTx | BuildValidatorScoreRevealTx | BuildCompletionTx

  datatype Advice = Advice(status: Status, phase: ChainPhase, action: Action, blocked: bool, secsLeft: int, urgent: bool)

  const URGENCY_THRESHOLD_SECS := 4 * 3600

  function ComputeNextAction(b: Body, d: Deadlines, now: int): Advice {
    var phase := DeriveChainPhase(d, now);
    var secsLeft := SecondsUntilDeadline(d, now);
    var (action, blocked) := Choose(b, phase);
    Advice(b.status, phase, action, blocked, secsLeft, 0 < secsLeft < URGENCY_THRESHOLD_SECS)
  }

  /** The action for a status and phase, and whether a blocking reason is attached to it. */
  function Choose(b: Body, phase: ChainPhase): (Action, bool) {
    match b.status
    case NotAFit | Done | Rejected | NotShortlisted | Expired | MissedWindow => (TerminalReached, false)
    case Discovered => (Inspect, phase == Closed)
    case Inspected => if b.fitEvaluated then (Nothing, true) else (EvaluateFit, false)
    case FitApproved => if phase != CommitOpen then (Nothing, true) else (DraftApplication, false)
    case ApplicationDrafted => (BuildCommitTx, phase != CommitOpen)
    case CommitReady => (Nothing, true)
    case CommitSubmitted =>
      if phase == CommitOpen then (Nothing, true)
      else if phase == RevealOpen then (BuildRevealTx, false)
      else (Nothing, true)
    case RevealReady => (Nothing, true)
    case RevealSubmitted => (CheckShortlist, false)
    case Shortlisted => if phase != FinalistAccept then (Nothing, true) else (BuildFinalistTx, false)
    case FinalistAcceptReady => (Nothing, true)
    case FinalistAcceptSubmitted => if phase != TrialOpen then (Nothing, true) else (BuildTrial, false)
    case TrialInProgress => (BuildTrial, phase != TrialOpen)
    case TrialReady => (Nothing, true)
    case TrialSubmitted => (WaitScoring, false)
    case WaitingScorePhase =>
      if b.validatorAssigned && phase == ScoreCommit then (BuildValidatorScoreCommitTx, false) else (WaitScoring, false)
    case WinnerPending => (CheckWinner, false)
    case ValidatorScoreCommitReady => (Nothing, true)
    case ValidatorScoreCommitSubmitted =>
      (if phase == ScoreReveal then BuildValidatorScoreRevealTx else WaitScoring, false)
    case ValidatorScoreRevealReady => (Nothing, true)
    case ValidatorScoreRevealSubmitted => (WaitScoring, false)
    case Selected => (ExecuteJob, false)
    case SelectionExpired => (CheckWinner, false)
    case FallbackPromotable => (CheckWinner, false)
    case JobExecutionInProgress => (ExecuteJob, false)
    case CompletionReady => (Nothing, true)
    case CompletionSubmitted => (Nothing, false)
  }

  /** The chain phase an action has to be carried out in. */
  function BoundTo(a: Action): set<ChainPhase> {
    match a
    case DraftApplication | BuildCommitTx => {CommitOpen}
    case BuildRevealTx => {RevealOpen}
    case BuildFinalistTx => {FinalistAccept}
    case BuildTrial => {TrialOpen}
    case BuildValidatorScoreCommitTx => {ScoreCommit}
    case BuildValidatorScoreRevealTx => {ScoreReveal}
    case _ => {CommitOpen, RevealOpen, FinalistAccept, TrialOpen, ScoreCommit, ScoreReveal, Closed}
  }

  /** A window-bound action is proposed without a blocking reason only inside its window, and then the
      missed-window check of the monitor agrees that nothing was missed. */
  lemma UnblockedActionIsInItsWindow(b: Body, d: Deadlines, now: int)
    requires !ComputeNextAction(b, d, now).blocked
    ensures ComputeNextAction(b, d, now).phase in BoundTo(ComputeNextAction(b, d, now).action)
    ensures |BoundTo(ComputeNextAction(b, d, now).action)| == 1 ==>
              !DidMissRequiredWindow(b.status, ComputeNextAction(b, d, now).phase)
  {
  }

  /** In a status that waits for the operator's signature nothing is proposed, whatever the clock says. */
  lemma ReadyProposesNothing(b: Body, d: Deadlines, now: int)
    requires Ready(b.status)
    ensures ComputeNextAction(b, d, now).action == Nothing && ComputeNextAction(b, d, now).blocked
  {
  }

  /** The completion package is never proposed, so the orchestrator's branch for it is dead. */
  lemma CompletionIsNeverProposed(b: Body, d: Deadlines, now: int)
    ensures ComputeNextAction(b, d, now).action != BuildCompletionTx
  {
  }

  /** What calls for an action: the table read the other way, from actions to statuses. */
  predicate CallsFor(a: Action, b: Body, phase: ChainPhase) {
    match a
    case TerminalReached => Terminal(b.status)
    case Inspect => b.status == Discovered
    case EvaluateFit => b.status == Inspected && !b.fitEvaluated
    case DraftApplication => b.status == FitApproved && phase == CommitOpen
    case BuildCommitTx => b.status == ApplicationDrafted
    case BuildRevealTx => b.status == CommitSubmitted && phase == RevealOpen
    case CheckShortlist => b.status == RevealSubmitted
    case BuildFinalistTx => b.status == Shortlisted && phase == FinalistAccept
    case BuildTrial => b.status == TrialInProgress || (b.status == FinalistAcceptSubmitted && phase == TrialOpen)
    case BuildValidatorScoreCommitTx => b.status == WaitingScorePhase && b.validatorAssigned && phase == ScoreCommit
    case BuildValidatorScoreRevealTx => b.status == ValidatorScoreCommitSubmitted && phase == ScoreReveal
    case WaitScoring =>
      || b.status in {TrialSubmitted, ValidatorScoreRevealSubmitted}
      || (b.status == WaitingScorePhase && !(b.validatorAssigned && phase == ScoreCommit))
      || (b.status == ValidatorScoreCommitSubmitted && phase != ScoreReveal)
    case CheckWinner => b.status in {WinnerPending, SelectionExpired, FallbackPromotable}
    case ExecuteJob => b.status in {Selected, JobExecutionInProgress}
    case BuildCompletionTx => false
    case Nothing => Waits(b, phase) || b.status == CompletionSubmitted
  }

  /** The agent waits: for a signature, for the operator's decision, or for the window of the next step. */
  predicate Waits(b: Body, phase: ChainPhase) {
    || Ready(b.status)
    || (b.status == Inspected && b.fitEvaluated)
    || (b.status == FitApproved && phase != CommitOpen)
    || (b.status == CommitSubmitted && phase != RevealOpen)
    || (b.status == Shortlisted && phase != FinalistAccept)
    || (b.status == FinalistAcceptSubmitted && phase != TrialOpen)
  }

  /** An action is proposed if and only if status, flags and phase call for it, and a blocking reason is attached if and
      only if the agent waits or the action's own window is shut. */
  lemma ProposedExactly(b: Body, d: Deadlines, now: int, a: Action)
    ensures var advice, phase := ComputeNextAction(b, d, now), DeriveChainPhase(d, now);
            && advice.status == b.status && advice.phase == phase && advice.secsLeft == SecondsUntilDeadline(d, now)
            && (advice.action == a <==> CallsFor(a, b, phase))
            && (advice.blocked <==>
                  || Waits(b, phase)
                  || (b.status == Discovered && phase == Closed)
                  || (b.status == ApplicationDrafted && phase != CommitOpen)
                  || (b.status == TrialInProgress && phase != TrialOpen))
  {
    hide CallsFor, Waits, Choose;
    var phase := DeriveChainPhase(d, now);
    ChosenIsCalledFor(b, phase);
    BlockedExactly(b, phase);
    if CallsFor(a, b, phase) {
      OneActionIsCalledFor(a, Choose(b, phase).0, b, phase);
    }
  }

  lemma ChosenIsCalledFor(b: Body, phase: ChainPhase)
    ensures CallsFor(Choose(b, phase).0, b, phase)
  {
  }

  lemma OneActionIsCalledFor(a: Action, a': Action, b: Body, phase: ChainPhase)
    requires CallsFor(a, b, phase) && CallsFor(a', b, phase)
    ensures a == a'
  {
  }

  lemma BlockedExactly(b: Body, phase: ChainPhase)
    ensures Choose(b, phase).1 <==>
              || Waits(b, phase)
              || (b.status == Discovered && phase == Closed)
              || (b.status == ApplicationDrafted && phase != CommitOpen)
              || (b.status == TrialInProgress && phase != TrialOpen)
  {
  }

  /** The urgency flag is raised exactly when the chain phase changes within the next four hours. */
  lemma UrgentExactlyBeforeAChange(b: Body, d: Deadlines, now: nat)
    ensures ComputeNextAction(b, d, now).urgent <==>
            DeriveChainPhase(d, now + 14399) != DeriveChainPhase(d, now)
  {
    CountdownIsExact(d, now);
    var left, soon := SecondsUntilDeadline(d, now), now + URGENCY_THRESHOLD_SECS - 1;
    if DeriveChainPhase(d, now) != Closed && left < URGENCY_THRESHOLD_SECS {
      PhaseNeverMovesBack(d, now + left, soon);
    }
  }
}

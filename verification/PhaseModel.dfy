/** The local status graph of a procurement, the clock-derived chain phase, and the missed-window verdict. */
module PhaseModel {

  datatype Status =
    | Discovered | Inspected | NotAFit | FitApproved
    | ApplicationDrafted | CommitReady | CommitSubmitted
    | RevealReady | RevealSubmitted
    | Shortlisted | FinalistAcceptReady | FinalistAcceptSubmitted
    | TrialInProgress | TrialReady | TrialSubmitted
    | ValidatorScoreCommitReady | ValidatorScoreCommitSubmitted
    | ValidatorScoreRevealReady | ValidatorScoreRevealSubmitted
    | WaitingScorePhase | WinnerPending
    | Selected | SelectionExpired | FallbackPromotable
    | JobExecutionInProgress | CompletionReady | CompletionSubmitted
    | Done | Rejected | NotShortlisted | Expired | MissedWindow

  predicate Terminal(s: Status) {
    s in {NotAFit, Done, Rejected, NotShortlisted, Expired, MissedWindow}
  }

  /** Statuses in which an unsigned package waits for the operator's signature. */
  predicate Ready(s: Status) {
    s in {CommitReady, RevealReady, FinalistAcceptReady, TrialReady,
          ValidatorScoreCommitReady, ValidatorScoreRevealReady, CompletionReady}
  }

  predicate Submitted(s: Status) {
    s in {CommitSubmitted, RevealSubmitted, FinalistAcceptSubmitted, TrialSubmitted,
          ValidatorScoreCommitSubmitted, ValidatorScoreRevealSubmitted, CompletionSubmitted}
  }

  predicate ValidatorStatus(s: Status) {
    s in {ValidatorScoreCommitReady, ValidatorScoreCommitSubmitted,
          ValidatorScoreRevealReady, ValidatorScoreRevealSubmitted}
  }

  /** The transition table. */
  predicate ValidTransition(s: Status, t: Status) {
    match s
    case Discovered => t in {Inspected, Expired, MissedWindow}
    case Inspected => t in {NotAFit, FitApproved, MissedWindow}
    case FitApproved => t in {ApplicationDrafted, MissedWindow}
    case ApplicationDrafted => t in {CommitReady, MissedWindow}
    case CommitReady => t in {CommitSubmitted, Expired, MissedWindow}
    case CommitSubmitted => t in {RevealReady, Expired, MissedWindow}
    case RevealReady => t in {RevealSubmitted, Expired, MissedWindow}
    case RevealSubmitted => t in {Shortlisted, NotShortlisted, Expired, MissedWindow}
    case Shortlisted => t in {FinalistAcceptReady, Expired, MissedWindow}
    case FinalistAcceptReady => t in {FinalistAcceptSubmitted, TrialReady, Expired, MissedWindow}
    case FinalistAcceptSubmitted => t in {TrialInProgress, Expired, MissedWindow}
    case TrialInProgress => t in {TrialReady, Expired, MissedWindow}
    case TrialReady => t in {TrialSubmitted, Expired, MissedWindow}
    case TrialSubmitted => t in {WaitingScorePhase, Expired, MissedWindow}
    case ValidatorScoreCommitReady => t in {ValidatorScoreCommitSubmitted, Expired, MissedWindow}
    case ValidatorScoreCommitSubmitted => t in {ValidatorScoreRevealReady, Expired, MissedWindow}
    case ValidatorScoreRevealReady => t in {ValidatorScoreRevealSubmitted, Expired, MissedWindow}
    case ValidatorScoreRevealSubmitted => t in {WaitingScorePhase, Expired, MissedWindow}
    case WaitingScorePhase => t in {WinnerPending, Rejected, Expired, MissedWindow}
    case WinnerPending => t in {Selected, SelectionExpired}
    case SelectionExpired => t in {FallbackPromotable, Expired}
    case FallbackPromotable => t in {Selected, Expired}
    case Selected => t in {JobExecutionInProgress}
    case JobExecutionInProgress => t in {CompletionReady}
    case CompletionReady => t in {CompletionSubmitted}
    case CompletionSubmitted => t in {Done}
    case NotShortlisted | NotAFit | Done | Rejected | Expired | MissedWindow => false
  }

  // ---- chain phase ----

  datatype ChainPhase = CommitOpen | RevealOpen | FinalistAccept | TrialOpen | ScoreCommit | ScoreReveal | Closed

  datatype Deadlines = Deadlines(commitBy: int, revealBy: int, finalistAcceptBy: int,
                                 trialBy: int, scoreCommitBy: int, scoreRevealBy: int)

  function DeriveChainPhase(d: Deadlines, now: int): ChainPhase {
    if now < d.commitBy then CommitOpen
    else if now < d.revealBy then RevealOpen
    else if now < d.finalistAcceptBy then FinalistAccept
    else if now < d.trialBy then TrialOpen
    else if now < d.scoreCommitBy then ScoreCommit
    else if now < d.scoreRevealBy then ScoreReveal
    else Closed
  }

  function SecondsUntilDeadline(d: Deadlines, now: int): int {
    var deadline := match DeriveChainPhase(d, now)
      case CommitOpen => d.commitBy
      case RevealOpen => d.revealBy
      case FinalistAccept => d.finalistAcceptBy
      case TrialOpen => d.trialBy
      case ScoreCommit => d.scoreCommitBy
      case ScoreReveal => d.scoreRevealBy
      case Closed => 0;
    if deadline - now > 0 then deadline - now else 0
  }

  /** Position of a phase in the lifecycle. */
  function Order(p: ChainPhase): nat {
    match p
    case CommitOpen => 0
    case RevealOpen => 1
    case FinalistAccept => 2
    case TrialOpen => 3
    case ScoreCommit => 4
    case ScoreReveal => 5
    case Closed => 6
  }

  // ---- the operator's report: one flag per window ----

  datatype Windows = Windows(commitOpen: bool, revealOpen: bool, finalistOpen: bool,
                             trialOpen: bool, scoreCommitOpen: bool, scoreRevealOpen: bool)

  function WindowsFromDeadlines(d: Deadlines, now: int): Windows {
    Windows(now < d.commitBy,
            d.commitBy <= now < d.revealBy,
            d.revealBy <= now < d.finalistAcceptBy,
            d.finalistAcceptBy <= now < d.trialBy,
            d.trialBy <= now < d.scoreCommitBy,
            d.scoreCommitBy <= now < d.scoreRevealBy)
  }

  /** The report in which the flag of `p` is the only one raised (none for Closed). */
  function OnlyWindow(p: ChainPhase): Windows {
    Windows(p.CommitOpen?, p.RevealOpen?, p.FinalistAccept?, p.TrialOpen?, p.ScoreCommit?, p.ScoreReveal?)
  }

  predicate Nondecreasing(d: Deadlines) {
    d.commitBy <= d.revealBy <= d.finalistAcceptBy <= d.trialBy <= d.scoreCommitBy <= d.scoreRevealBy
  }

  /** Every window that opens at all opens no earlier than every preceding deadline. */
  predicate OpensLate(d: Deadlines) {
    && (d.revealBy < d.finalistAcceptBy ==> d.commitBy <= d.revealBy)
    && (d.finalistAcceptBy < d.trialBy ==> d.commitBy <= d.finalistAcceptBy && d.revealBy <= d.finalistAcceptBy)
    && (d.trialBy < d.scoreCommitBy ==> d.commitBy <= d.trialBy && d.revealBy <= d.trialBy && d.finalistAcceptBy <= d.trialBy)
    && (d.scoreCommitBy < d.scoreRevealBy ==>
          && d.commitBy <= d.scoreCommitBy && d.revealBy <= d.scoreCommitBy
          && d.finalistAcceptBy <= d.scoreCommitBy && d.trialBy <= d.scoreCommitBy)
  }

  // ---- missed windows ----

  predicate DidMissRequiredWindow(s: Status, p: ChainPhase) {
    if Terminal(s) then false
    else if s in {FitApproved, ApplicationDrafted, CommitReady} then p != CommitOpen
    else if s in {CommitSubmitted, RevealReady} then p != RevealOpen
    else if s in {Shortlisted, FinalistAcceptReady, FinalistAcceptSubmitted} then p != FinalistAccept && p != TrialOpen
    else if s in {TrialInProgress, TrialReady} then p != TrialOpen
    else false
  }

  /** First and last phase in which the step a status is waiting for can still be taken. */
  datatype Span = Anytime | Between(first: ChainPhase, last: ChainPhase)

  function RequiredSpan(s: Status): Span {
    match s
    case FitApproved | ApplicationDrafted | CommitReady => Between(CommitOpen, CommitOpen)
    case CommitSubmitted | RevealReady => Between(RevealOpen, RevealOpen)
    case Shortlisted | FinalistAcceptReady | FinalistAcceptSubmitted => Between(FinalistAccept, TrialOpen)
    case TrialInProgress | TrialReady => Between(TrialOpen, TrialOpen)
    case _ => Anytime
  }
}

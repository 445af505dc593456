/** What a status history looks like when every status was entered by a checked write. */
module Milestones {
  import opened Basics
  import opened PhaseModel
  import opened ProcState
  import opened Integrity

  /** Starts at Discovered and moves only along legal transitions, none of them forced. */
  ghost predicate LegalHistory(h: seq<Entry>) {
    && |h| > 0
    && h[0] == Entry(Discovered, false)
    && forall i :: 0 < i < |h| ==> !h[i].forced && ValidTransition(h[i - 1].status, h[i].status)
  }

  ghost predicate Occurs(s: Status, h: seq<Entry>) {
    exists i :: 0 <= i < |h| && h[i].status == s
  }

  /** Depth of a status in the transition graph. */
  function Rank(s: Status): nat {
    match s
    case Discovered => 0
    case Inspected => 1
    case FitApproved => 2
    case ApplicationDrafted => 3
    case CommitReady => 4
    case CommitSubmitted => 5
    case RevealReady => 6
    case RevealSubmitted => 7
    case Shortlisted => 8
    case FinalistAcceptReady => 9
    case FinalistAcceptSubmitted => 10
    case TrialInProgress => 11
    case TrialReady => 12
    case TrialSubmitted => 13
    case ValidatorScoreCommitReady => 10
    case ValidatorScoreCommitSubmitted => 11
    case ValidatorScoreRevealReady => 12
    case ValidatorScoreRevealSubmitted => 13
    case WaitingScorePhase => 14
    case WinnerPending => 15
    case SelectionExpired => 16
    case FallbackPromotable => 17
    case Selected => 18
    case JobExecutionInProgress => 19
    case CompletionReady => 20
    case CompletionSubmitted => 21
    case Done | NotAFit | Rejected | NotShortlisted | Expired | MissedWindow => 22
  }

  lemma TransitionRaisesRank(s: Status, t: Status)
    requires ValidTransition(s, t)
    ensures Rank(s) < Rank(t) <= 22
  {
  }

  lemma {:induction false} RanksIncrease(h: seq<Entry>, i: nat, j: nat)
    requires LegalHistory(h) && i < j < |h|
    ensures Rank(h[i].status) + (j - i) <= Rank(h[j].status)
    decreases j
  {
    hide ValidTransition, Rank;
    if i < j - 1 {
      RanksIncrease(h, i, j - 1);
    }
    TransitionRaisesRank(h[j - 1].status, h[j].status);
  }

  /** No status is ever entered twice, so a procurement changes status at most 22 times. */
  lemma HistoryNeverRepeats(h: seq<Entry>)
    requires LegalHistory(h)
    ensures |h| <= 23
    ensures forall i, j :: 0 <= i < j < |h| ==> h[i].status != h[j].status
  {
    hide ValidTransition, Rank;
    if |h| > 1 {
      RanksIncrease(h, 0, |h| - 1);
      TransitionRaisesRank(h[|h| - 2].status, h[|h| - 1].status);
    }
    forall i, j | 0 <= i < j < |h|
      ensures h[i].status != h[j].status
    {
      RanksIncrease(h, i, j);
    }
  }

  /** Statuses on the way to Done. */
  predicate OnTheWay(s: Status) {
    !ValidatorStatus(s) && (!Terminal(s) || s == Done)
  }

  /** The slowest way into a status: one rank at a time. */
  function Before(s: Status): Status
    requires OnTheWay(s) && s != Discovered
  {
    match s
    case Inspected => Discovered
    case FitApproved => Inspected
    case ApplicationDrafted => FitApproved
    case CommitReady => ApplicationDrafted
    case CommitSubmitted => CommitReady
    case RevealReady => CommitSubmitted
    case RevealSubmitted => RevealReady
    case Shortlisted => RevealSubmitted
    case FinalistAcceptReady => Shortlisted
    case FinalistAcceptSubmitted => FinalistAcceptReady
    case TrialInProgress => FinalistAcceptSubmitted
    case TrialReady => TrialInProgress
    case TrialSubmitted => TrialReady
    case WaitingScorePhase => TrialSubmitted
    case WinnerPending => WaitingScorePhase
    case SelectionExpired => WinnerPending
    case FallbackPromotable => SelectionExpired
    case Selected => FallbackPromotable
    case JobExecutionInProgress => Selected
    case CompletionReady => JobExecutionInProgress
    case CompletionSubmitted => CompletionReady
    case Done => CompletionSubmitted
  }

  lemma BeforeIsOneRankDown(s: Status)
    requires OnTheWay(s) && s != Discovered
    ensures Rank(Before(s)) + 1 == Rank(s) && OnTheWay(Before(s))
  {
  }

  lemma BeforeIsLegal(s: Status)
    requires OnTheWay(s) && s != Discovered
    ensures ValidTransition(Before(s), s)
  {
  }

  /** The bound is attained: some legal history reaches `s` with one entry per rank, and Done with 23. */
  lemma {:induction false} LongestHistory(s: Status) returns (h: seq<Entry>)
    requires OnTheWay(s)
    ensures LegalHistory(h) && h[|h| - 1].status == s && |h| == Rank(s) + 1
    ensures s == Done ==> |h| == 23
    decreases Rank(s)
  {
    hide ValidTransition, Before;
    if s == Discovered {
      h := [Entry(Discovered, false)];
    } else {
      BeforeIsOneRankDown(s);
      BeforeIsLegal(s);
      var before := LongestHistory(Before(s));
      ExtendLegal(before, s);
      h := before + [Entry(s, false)];
    }
  }

  /** No legal transition enters the validator statuses from outside, so checked writes never reach them. */
  lemma {:induction false} ValidatorStatusesAreUnreachable(h: seq<Entry>, i: nat)
    requires LegalHistory(h) && i < |h|
    ensures !ValidatorStatus(h[i].status)
  {
    if i > 0 {
      ValidatorStatusesAreUnreachable(h, i - 1);
    }
  }

  // ---- milestones: the statuses that cannot be bypassed ----

  /** The nearest status that every legal route to `s` passes through. */
  function Gatekeeper(s: Status): Status
    requires s != Discovered && !ValidatorStatus(s)
  {
    match s
    case Inspected | Expired | MissedWindow => Discovered
    case FitApproved | NotAFit => Inspected
    case ApplicationDrafted => FitApproved
    case CommitReady => ApplicationDrafted
    case CommitSubmitted => CommitReady
    case RevealReady => CommitSubmitted
    case RevealSubmitted => RevealReady
    case Shortlisted | NotShortlisted => RevealSubmitted
    case FinalistAcceptReady => Shortlisted
    case FinalistAcceptSubmitted | TrialReady => FinalistAcceptReady
    case TrialInProgress => FinalistAcceptSubmitted
    case TrialSubmitted => TrialReady
    case WaitingScorePhase => TrialSubmitted
    case WinnerPending | Rejected => WaitingScorePhase
    case SelectionExpired | Selected => WinnerPending
    case FallbackPromotable => SelectionExpired
    case JobExecutionInProgress => Selected
    case CompletionReady => JobExecutionInProgress
    case CompletionSubmitted => CompletionReady
    case Done => CompletionSubmitted
  }

  /** `m` is a gatekeeper of `s`, directly or through further gatekeepers. */
  predicate Guards(m: Status, s: Status)
    decreases Rank(s)
  {
    s != Discovered && !ValidatorStatus(s) && (m == Gatekeeper(s) || Guards(m, Gatekeeper(s)))
  }

  lemma {:induction false} DiscoveredGuardsAll(s: Status)
    requires s != Discovered && !ValidatorStatus(s)
    ensures Guards(Discovered, s)
    decreases Rank(s)
  {
    if Gatekeeper(s) != Discovered {
      DiscoveredGuardsAll(Gatekeeper(s));
    }
  }

  lemma GatekeeperIsAPredecessor(s: Status)
    requires s != Discovered && !ValidatorStatus(s)
    ensures ValidTransition(Gatekeeper(s), s)
    ensures !ValidatorStatus(Gatekeeper(s))
  {
  }

  lemma GatekeeperIsEarlier(s: Status)
    requires s != Discovered && !ValidatorStatus(s)
    ensures Rank(Gatekeeper(s)) < Rank(s) && !ValidatorStatus(Gatekeeper(s))
  {
  }

  /** The transition table read backwards: the statuses a status can be entered from. */
  function EnteredFrom(t: Status): set<Status> {
    match t
    case Discovered => {}
    case Inspected => {Discovered}
    case NotAFit | FitApproved => {Inspected}
    case ApplicationDrafted => {FitApproved}
    case CommitReady => {ApplicationDrafted}
    case CommitSubmitted => {CommitReady}
    case RevealReady => {CommitSubmitted}
    case RevealSubmitted => {RevealReady}
    case Shortlisted | NotShortlisted => {RevealSubmitted}
    case FinalistAcceptReady => {Shortlisted}
    case FinalistAcceptSubmitted => {FinalistAcceptReady}
    case TrialInProgress => {FinalistAcceptSubmitted}
    case TrialReady => {FinalistAcceptReady, TrialInProgress}
    case TrialSubmitted => {TrialReady}
    case ValidatorScoreCommitReady => {}
    case ValidatorScoreCommitSubmitted => {ValidatorScoreCommitReady}
    case ValidatorScoreRevealReady => {ValidatorScoreCommitSubmitted}
    case ValidatorScoreRevealSubmitted => {ValidatorScoreRevealReady}
    case WaitingScorePhase => {TrialSubmitted, ValidatorScoreRevealSubmitted}
    case WinnerPending | Rejected => {WaitingScorePhase}
    case Selected => {WinnerPending, FallbackPromotable}
    case SelectionExpired => {WinnerPending}
    case FallbackPromotable => {SelectionExpired}
    case JobExecutionInProgress => {Selected}
    case CompletionReady => {JobExecutionInProgress}
    case CompletionSubmitted => {CompletionReady}
    case Done => {CompletionSubmitted}
    case Expired => MayExpire() + {Discovered, SelectionExpired, FallbackPromotable}
    case MissedWindow => MayExpire() + {Discovered, Inspected, FitApproved, ApplicationDrafted}
  }

  /** From a packaged commit to the end of scoring a procurement can expire as well as miss its window. */
  function MayExpire(): set<Status> {
    {CommitReady, CommitSubmitted, RevealReady, RevealSubmitted, Shortlisted, FinalistAcceptReady, FinalistAcceptSubmitted,
     TrialInProgress, TrialReady, TrialSubmitted, ValidatorScoreCommitReady, ValidatorScoreCommitSubmitted,
     ValidatorScoreRevealReady, ValidatorScoreRevealSubmitted, WaitingScorePhase}
  }

  lemma TableReadBackwards(s: Status, t: Status)
    ensures ValidTransition(s, t) <==> s in EnteredFrom(t)
  {
    hide ValidTransition, EnteredFrom;
    if ValidTransition(s, t) {
      MovesAreListed(s, t);
    }
    if s in EnteredFrom(t) {
      ListedAreMoves(s, t);
    }
  }

  lemma MovesAreListed(s: Status, t: Status)
    requires ValidTransition(s, t)
    ensures s in EnteredFrom(t)
  {
  }

  lemma ListedAreMoves(s: Status, t: Status)
    requires s in EnteredFrom(t)
    ensures ValidTransition(s, t)
  {
    hide MayExpire;
    if s in MayExpire() {
      MayExpireOrMiss(s);
    }
  }

  lemma MayExpireOrMiss(s: Status)
    requires s in MayExpire()
    ensures ValidTransition(s, Expired) && ValidTransition(s, MissedWindow)
  {
  }

  /** Nothing leads out of a terminal status, and out of every other status something does. */
  lemma TerminalExactly(s: Status)
    ensures Terminal(s) <==> forall t :: !ValidTransition(s, t)
  {
    assert ValidTransition(Discovered, Inspected) && ValidTransition(CompletionSubmitted, Done);
    if !Terminal(s) {
      SomewhereToGo(s);
    }
  }

  lemma SomewhereToGo(s: Status)
    requires !Terminal(s)
    ensures exists t :: ValidTransition(s, t)
  {
    var t := match s
      case Discovered => Inspected
      case Inspected => FitApproved
      case FitApproved => ApplicationDrafted
      case ApplicationDrafted => CommitReady
      case WinnerPending => Selected
      case Selected => JobExecutionInProgress
      case JobExecutionInProgress => CompletionReady
      case CompletionReady => CompletionSubmitted
      case CompletionSubmitted => Done
      case _ => Expired;
    assert ValidTransition(s, t);
  }

  /** The only legal moves that do not come from the gatekeeper itself. */
  lemma DetoursAreFew(s: Status, t: Status)
    requires ValidTransition(s, t) && !ValidatorStatus(s) && !ValidatorStatus(t) && s != Gatekeeper(t)
    ensures t in {Expired, MissedWindow} || (s == TrialInProgress && t == TrialReady) || (s == FallbackPromotable && t == Selected)
  {
  }

  lemma DetourKeepsGuards(m: Status, s: Status, t: Status)
    requires t in {Expired, MissedWindow} || (s == TrialInProgress && t == TrialReady) || (s == FallbackPromotable && t == Selected)
    requires !ValidatorStatus(s) && Guards(m, t)
    ensures m == s || Guards(m, s)
  {
    hide Guards;
    UnfoldGuards(m, t);
    if t in {Expired, MissedWindow} {
      UnfoldGuards(m, Discovered);
      if s != Discovered {
        DiscoveredGuardsAll(s);
      }
    } else if t == TrialReady {
      UnfoldGuards(m, FinalistAcceptSubmitted);
      UnfoldGuards(m, TrialInProgress);
    } else {
      UnfoldGuards(m, SelectionExpired);
      UnfoldGuards(m, FallbackPromotable);
    }
  }

  lemma UnfoldGuards(m: Status, s: Status)
    requires !ValidatorStatus(s)
    ensures Guards(m, s) <==> s != Discovered && (m == Gatekeeper(s) || Guards(m, Gatekeeper(s)))
  {
    hide Gatekeeper;
  }

  lemma GuardsPassesThroughTransitions(m: Status, s: Status, t: Status)
    requires ValidTransition(s, t) && !ValidatorStatus(s) && Guards(m, t)
    ensures m == s || Guards(m, s)
  {
    hide ValidTransition, Gatekeeper;
    if s != Gatekeeper(t) {
      DetoursAreFew(s, t);
      DetourKeepsGuards(m, s, t);
    }
  }

  /** A legal history that is at `s` has been at every status guarding `s`. */
  lemma {:induction false} GuardsWereVisited(h: seq<Entry>, i: nat, m: Status) returns (k: nat)
    requires LegalHistory(h) && i < |h| && Guards(m, h[i].status)
    ensures k < i && h[k].status == m
  {
    if h[i - 1].status == m {
      k := i - 1;
    } else {
      ValidatorStatusesAreUnreachable(h, i - 1);
      GuardsPassesThroughTransitions(m, h[i - 1].status, h[i].status);
      k := GuardsWereVisited(h, i - 1, m);
    }
  }

  /** The route to `s` that visits nothing but its guards. */
  function Route(s: Status): (r: seq<Entry>)
    requires !ValidatorStatus(s)
    ensures |r| > 0 && r[|r| - 1] == Entry(s, false)
    ensures forall k :: 0 <= k < |r| - 1 ==> Guards(r[k].status, s)
    decreases Rank(s)
  {
    if s == Discovered then [Entry(Discovered, false)]
    else
      hide Gatekeeper, Rank, ValidatorStatus;
      GatekeeperIsEarlier(s);
      var before := Route(Gatekeeper(s));
      assert forall k :: 0 <= k < |before| ==> Guards(before[k].status, s);
      before + [Entry(s, false)]
  }

  lemma ExtendLegal(h: seq<Entry>, s: Status)
    requires LegalHistory(h) && ValidTransition(h[|h| - 1].status, s)
    ensures LegalHistory(h + [Entry(s, false)])
  {
  }

  lemma {:induction false} RouteIsLegal(s: Status)
    requires !ValidatorStatus(s)
    ensures LegalHistory(Route(s))
    decreases Rank(s)
  {
    if s != Discovered {
      GatekeeperIsAPredecessor(s);
      RouteIsLegal(Gatekeeper(s));
      ExtendLegal(Route(Gatekeeper(s)), s);
    }
  }

  /** Exactly the guards of `s` occur in every legal history that ends in `s`. */
  lemma GuardsAreExactlyTheMilestones(m: Status, s: Status)
    requires !ValidatorStatus(s) && m != s
    ensures Guards(m, s) <==>
            forall h: seq<Entry> :: LegalHistory(h) && h[|h| - 1].status == s ==> Occurs(m, h)
  {
    if Guards(m, s) {
      forall h: seq<Entry> | LegalHistory(h) && h[|h| - 1].status == s
        ensures Occurs(m, h)
      {
        var k := GuardsWereVisited(h, |h| - 1, m);
      }
    } else {
      RouteIsLegal(s);
      assert !Occurs(m, Route(s));
    }
  }

  lemma EarlyMilestonesGuardEachOther()
    ensures Guards(FitApproved, CommitSubmitted) && Guards(CommitSubmitted, RevealSubmitted)
    ensures Guards(RevealSubmitted, Shortlisted) && Guards(Shortlisted, FinalistAcceptReady)
  {
    assert Guards(FitApproved, CommitReady);
  }

  lemma TrialMilestonesGuardEachOther()
    ensures Guards(FinalistAcceptReady, TrialReady) && Guards(TrialReady, TrialSubmitted)
  {
  }

  lemma LateMilestonesGuardEachOther()
    ensures Guards(TrialSubmitted, WinnerPending) && Guards(WinnerPending, Selected)
  {
    assert Guards(TrialSubmitted, WaitingScorePhase);
  }

  /** A selected procurement was fit-approved, committed, revealed, shortlisted, made ready as finalist,
      had its trial made ready and submitted, and waited for the winner: earlier and in this order. */
  lemma SelectedPassedEveryMilestone(h: seq<Entry>, selected: nat)
    returns (approved: nat, committed: nat, revealed: nat, shortlisted: nat,
             accepting: nat, trialReady: nat, trialDone: nat, pending: nat)
    requires LegalHistory(h) && selected < |h| && h[selected].status == Selected
    ensures approved < committed < revealed < shortlisted < accepting < trialReady < trialDone < pending < selected
    ensures h[approved].status == FitApproved && h[committed].status == CommitSubmitted
    ensures h[revealed].status == RevealSubmitted && h[shortlisted].status == Shortlisted
    ensures h[accepting].status == FinalistAcceptReady && h[trialReady].status == TrialReady
    ensures h[trialDone].status == TrialSubmitted && h[pending].status == WinnerPending
  {
    hide LegalHistory, Guards;
    EarlyMilestonesGuardEachOther();
    TrialMilestonesGuardEachOther();
    LateMilestonesGuardEachOther();
    pending := GuardsWereVisited(h, selected, WinnerPending);
    trialDone := GuardsWereVisited(h, pending, TrialSubmitted);
    trialReady := GuardsWereVisited(h, trialDone, TrialReady);
    accepting := GuardsWereVisited(h, trialReady, FinalistAcceptReady);
    shortlisted := GuardsWereVisited(h, accepting, Shortlisted);
    revealed := GuardsWereVisited(h, shortlisted, RevealSubmitted);
    committed := GuardsWereVisited(h, revealed, CommitSubmitted);
    approved := GuardsWereVisited(h, committed, FitApproved);
  }

  // ---- histories in the state file ----

  /** No operation in the list bypasses the transition check. */
  ghost predicate Checked(ops: seq<StateOp>) {
    forall i :: 0 <= i < |ops| ==> !ops[i].Force?
  }

  ghost predicate HistoryTellsStatus(b: Body) {
    LegalHistory(b.history) && b.history[|b.history| - 1].status == b.status
  }

  lemma EnterKeepsHistoryLegal(b: Body, s: Status)
    requires HistoryTellsStatus(b) && ValidTransition(b.status, s)
    ensures HistoryTellsStatus(Enter(b, s, false))
  {
    ExtendLegal(b.history, s);
  }

  /** Whatever sequence of checked operations wrote the state, its history is legal and ends in its status. */
  lemma {:induction false} CheckedWritesKeepLegalHistory(ops: seq<StateOp>)
    requires Checked(ops)
    ensures var file := PerformAll(None, ops); file.Some? ==> HistoryTellsStatus(file.value.body)
  {
    hide Perform, HistoryTellsStatus;
    if ops != [] {
      CheckedWritesKeepLegalHistory(ops[..|ops| - 1]);
      CheckedWriteKeepsLegalHistory(PerformAll(None, ops[..|ops| - 1]), ops[|ops| - 1]);
    }
  }

  lemma CheckedWriteKeepsLegalHistory(before: Option<Record>, op: StateOp)
    requires !op.Force? && (before.Some? ==> HistoryTellsStatus(before.value.body))
    ensures Perform(before, op).Some? ==> HistoryTellsStatus(Perform(before, op).value.body)
  {
    hide ValidTransition, LegalHistory;
    FreshHistoryIsLegal();
    match op
    case GetOrCreate(jobId) =>
    case Set(p) =>
      var current := CurrentOrFresh(before).body;
      if p.status.Some? && ValidTransition(current.status, p.status.value) {
        EnterKeepsHistoryLegal(Merge(current, p), p.status.value);
      }
    case Transition(s, extra) =>
      if before.Some? && ValidTransition(before.value.body.status, s) {
        EnterKeepsHistoryLegal(Merge(before.value.body, extra), s);
      }
  }

  lemma FreshHistoryIsLegal()
    ensures LegalHistory([Entry(Discovered, false)])
  {
  }
}

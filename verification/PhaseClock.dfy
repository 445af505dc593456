/** Properties of the chain-phase clock and of the missed-window verdict. */
module PhaseClock {
  import opened PhaseModel

  /** Time never takes a procurement back to an earlier phase, whatever the deadlines are. */
  lemma PhaseNeverMovesBack(d: Deadlines, earlier: int, later: int)
    requires earlier <= later
    ensures Order(DeriveChainPhase(d, earlier)) <= Order(DeriveChainPhase(d, later))
  {
  }

  /** At every clock reading (a Unix time, so not negative) the countdown is the exact time to the next phase change;
      it is zero exactly once the procurement is closed, and a closed procurement stays closed. */
  lemma CountdownIsExact(d: Deadlines, now: nat)
    ensures var left := SecondsUntilDeadline(d, now);
            var phase := DeriveChainPhase(d, now);
            && (left == 0 <==> phase == Closed)
            && (forall later :: now <= later < now + left ==> DeriveChainPhase(d, later) == phase)
            && (phase != Closed ==> Order(DeriveChainPhase(d, now + left)) > Order(phase))
            && (phase == Closed ==> forall later :: now <= later ==> DeriveChainPhase(d, later) == Closed)
  {
    var left := SecondsUntilDeadline(d, now);
    var next := DeriveChainPhase(d, now + left);
    match DeriveChainPhase(d, now)
    case CommitOpen => assert now + left == d.commitBy;
    case RevealOpen => assert now + left == d.revealBy;
    case FinalistAccept => assert now + left == d.finalistAcceptBy;
    case TrialOpen => assert now + left == d.trialBy;
    case ScoreCommit => assert now + left == d.scoreCommitBy;
    case ScoreReveal => assert now + left == d.scoreRevealBy;
    case Closed =>
  }

  /** The window report agrees with the derived phase at every instant exactly when no window opens early. */
  lemma WindowReportAgreesExactly(d: Deadlines)
    ensures (forall now: int :: WindowsFromDeadlines(d, now) == OnlyWindow(DeriveChainPhase(d, now))) <==> OpensLate(d)
  {
    if !OpensLate(d) {
      // The opening instant of some early window lies inside an earlier phase.
      var now := if d.revealBy < d.finalistAcceptBy && d.revealBy < d.commitBy then d.revealBy
                 else if d.finalistAcceptBy < d.trialBy && !(d.commitBy <= d.finalistAcceptBy && d.revealBy <= d.finalistAcceptBy)
                 then d.finalistAcceptBy
                 else if d.trialBy < d.scoreCommitBy && !(d.commitBy <= d.trialBy && d.revealBy <= d.trialBy && d.finalistAcceptBy <= d.trialBy)
                 then d.trialBy
                 else d.scoreCommitBy;
      assert WindowsFromDeadlines(d, now) != OnlyWindow(DeriveChainPhase(d, now));
    }
  }

  /** For deadlines in order, exactly the flag of the current phase is raised, and none once closed. */
  lemma OrderedDeadlinesRaiseOneFlag(d: Deadlines, now: int)
    requires Nondecreasing(d)
    ensures WindowsFromDeadlines(d, now) == OnlyWindow(DeriveChainPhase(d, now))
  {
    WindowReportAgreesExactly(d);
  }

  /** A verdict is declared exactly outside the span of phases in which the awaited step is possible. */
  lemma VerdictIsOutsideTheSpan(s: Status, p: ChainPhase)
    ensures DidMissRequiredWindow(s, p) <==>
            RequiredSpan(s).Between? && (Order(p) < Order(RequiredSpan(s).first) || Order(p) > Order(RequiredSpan(s).last))
  {
  }

  /** The awaited step will become possible at some later time. */
  ghost predicate StillToCome(s: Status, d: Deadlines, now: int) {
    exists later :: now <= later && !DidMissRequiredWindow(s, DeriveChainPhase(d, later))
  }

  /** The span of `s` is nonempty under these deadlines: some instant lies inside it. */
  predicate SpanOpens(s: Status, d: Deadlines) {
    var beforeReveal := d.commitBy;
    var beforeFinalist := if d.revealBy > beforeReveal then d.revealBy else beforeReveal;
    var beforeTrial := if d.finalistAcceptBy > beforeFinalist then d.finalistAcceptBy else beforeFinalist;
    match RequiredSpan(s)
    case Anytime => true
    case Between(first, last) =>
      match first
      case CommitOpen => true
      case RevealOpen => beforeReveal < d.revealBy
      case FinalistAccept => beforeFinalist < d.finalistAcceptBy || beforeTrial < d.trialBy
      case _ => beforeTrial < d.trialBy
  }

  /** A missed-window verdict is premature, that is the awaited window is still to come, if and only if
      the phase is before the span and the span opens at all. */
  lemma VerdictIsPrematureExactly(s: Status, d: Deadlines, now: int)
    requires DidMissRequiredWindow(s, DeriveChainPhase(d, now))
    ensures StillToCome(s, d, now) <==>
            Order(DeriveChainPhase(d, now)) < Order(RequiredSpan(s).first) && SpanOpens(s, d)
  {
    var first := RequiredSpan(s).first;
    var beforeFinalist := if d.revealBy > d.commitBy then d.revealBy else d.commitBy;
    var beforeTrial := if d.finalistAcceptBy > beforeFinalist then d.finalistAcceptBy else beforeFinalist;
    if Order(DeriveChainPhase(d, now)) < Order(first) && SpanOpens(s, d) {
      var later := if first == RevealOpen then d.commitBy
                   else if first == FinalistAccept && beforeFinalist < d.finalistAcceptBy then beforeFinalist
                   else beforeTrial;
      assert now <= later && !DidMissRequiredWindow(s, DeriveChainPhase(d, later));
    }
    if StillToCome(s, d, now) {
      var later :| now <= later && !DidMissRequiredWindow(s, DeriveChainPhase(d, later));
      PhaseNeverMovesBack(d, now, later);
    }
  }

  /** A freshly submitted commit is declared missed while the commit window is open and the reveal is still to come. */
  lemma SubmittedCommitIsMissedBeforeReveal(d: Deadlines, now: int)
    requires now < d.commitBy < d.revealBy
    ensures DidMissRequiredWindow(CommitSubmitted, DeriveChainPhase(d, now))
    ensures StillToCome(CommitSubmitted, d, now)
  {
    VerdictIsPrematureExactly(CommitSubmitted, d, now);
  }

  /** Whenever a miss is declared, moving to MissedWindow is a legal transition. */
  lemma MissIsAlwaysRecordable(s: Status, p: ChainPhase)
    requires DidMissRequiredWindow(s, p)
    ensures ValidTransition(s, MissedWindow)
  {
  }

  // ---- missed windows, phase by phase ----

  /** The statuses whose awaited step can be taken in a phase. */
  function CanStillAct(p: ChainPhase): set<Status> {
    match p
    case CommitOpen => {FitApproved, ApplicationDrafted, CommitReady}
    case RevealOpen => {CommitSubmitted, RevealReady}
    case FinalistAccept => {Shortlisted, FinalistAcceptReady, FinalistAcceptSubmitted}
    case TrialOpen => {Shortlisted, FinalistAcceptReady, FinalistAcceptSubmitted, TrialInProgress, TrialReady}
    case ScoreCommit | ScoreReveal | Closed => {}
  }

  /** A miss is declared exactly in a phase in which a status that can act in some phase cannot. */
  lemma MissedPhaseByPhase(s: Status, p: ChainPhase)
    ensures DidMissRequiredWindow(s, p) <==> s !in CanStillAct(p) && exists q :: s in CanStillAct(q)
  {
    assert s in CanStillAct(CommitOpen) || s in CanStillAct(RevealOpen) || s in CanStillAct(FinalistAccept)
           || s in CanStillAct(TrialOpen) || forall q :: s !in CanStillAct(q);
  }
}

/** What each signal is worth in the scores, and which check speaks when several fail. */
module StrategyEffects {
  import opened Basics
  import opened Strategy

  // ---- difficulty ----

  /** A job with nothing for or against it. */
  predicate Unremarkable(s: Signals) {
    && s.category == Research && s.durationDays.None? && s.payout == Some(2000.0)
    && !s.missingSpec && !s.vagueRequirements && s.hasClearDeliverable && s.redFlagCount == 0 && s.clarityPositiveCount == 0
    && !s.requiresMultiDiscipline && !s.requiresExternalData && !s.requiresStrictFormat && !s.highDepthExpected
    && !s.beginnerFriendly && !s.noCodePreferred && !s.likelyGoodFit
  }

  lemma UnremarkableScores(s: Signals, t: Thresholds, difficulty: real, capability: real)
    requires Unremarkable(s)
    ensures RawDifficulty(s, t) == 0.1 && RawCapability(s) == 1.03
    ensures RawWinProbability(s, difficulty, capability) == 0.67 + 0.35 * capability - 0.35 * difficulty
    ensures RawExecution(s, difficulty, capability) == 0.58 + 0.45 * capability - 0.45 * difficulty
  {
  }

  /** What one signal of its own adds to the difficulty of 0.1. */
  lemma Hardens(s: Signals, t: Thresholds)
    requires Unremarkable(s)
    ensures RawDifficulty(s.(missingSpec := true), t) == 0.45
    ensures RawDifficulty(s.(vagueRequirements := true), t) == 0.3
    ensures RawDifficulty(s.(hasClearDeliverable := false), t) == 0.25
    ensures RawDifficulty(s.(requiresMultiDiscipline := true), t) == 0.45
    ensures RawDifficulty(s.(requiresExternalData := true), t) == 0.35
    ensures RawDifficulty(s.(requiresStrictFormat := true), t) == 0.25
    ensures RawDifficulty(s.(highDepthExpected := true), t) == 0.3
    ensures RawDifficulty(s.(category := Creative), t) == 0.18
    ensures RawDifficulty(s.(category := Development), t) == 0.22
  {
  }

  /** Red flags add up to the fourth, positive words count up to the fourth. */
  lemma HardensByCount(s: Signals, t: Thresholds, n: nat)
    requires Unremarkable(s)
    ensures RawDifficulty(s.(redFlagCount := n), t) == 0.1 + if n < 4 then n as real * 0.08 else 0.32
    ensures RawDifficulty(s.(clarityPositiveCount := n), t) == 0.1 - if n < 4 then n as real * 0.03 else 0.12
    ensures RawDifficulty(s.(beginnerFriendly := true), t) == 0.02
    ensures RawDifficulty(s.(noCodePreferred := true), t) == 0.04
  {
    assert n >= 4 ==> n as real >= 4.0;
    assert n < 4 ==> n as real <= 3.0;
  }

  lemma HardensByDuration(s: Signals, t: Thresholds, d: real)
    requires Unremarkable(s)
    ensures d < 1.0 ==> RawDifficulty(s.(durationDays := Some(d)), t) == 0.3
    ensures 1.0 <= d < 3.0 ==> RawDifficulty(s.(durationDays := Some(d)), t) == 0.2
    ensures 3.0 <= d <= t.maxDurationDays ==> RawDifficulty(s.(durationDays := Some(d)), t) == 0.1
    ensures 3.0 <= d && t.maxDurationDays < d ==> RawDifficulty(s.(durationDays := Some(d)), t) == 0.25
  {
  }

  // ---- capability ----

  lemma Suits(s: Signals)
    requires Unremarkable(s)
    ensures RawCapability(s.(likelyGoodFit := true)) == 1.18
    ensures RawCapability(s.(beginnerFriendly := true)) == 1.13
    ensures RawCapability(s.(noCodePreferred := true)) == 1.11
    ensures RawCapability(s.(hasClearDeliverable := false)) == 0.95
    ensures RawCapability(s.(vagueRequirements := true)) == 0.98
    ensures RawCapability(s.(requiresMultiDiscipline := true)) == 0.78
    ensures RawCapability(s.(requiresExternalData := true)) == 0.83
    ensures RawCapability(s.(requiresStrictFormat := true)) == 0.95
    ensures RawCapability(s.(highDepthExpected := true)) == 0.97
  {
  }

  lemma SuitsByCategory(s: Signals)
    requires Unremarkable(s)
    ensures RawCapability(s.(category := Analysis)) == 1.03 && RawCapability(s.(category := Development)) == 0.93
    ensures RawCapability(s.(category := Creative)) == 0.73 && RawCapability(s.(category := Other)) == 0.58
    ensures RawCapability(s.(category := Creative, highDepthExpected := true)) == 0.57
  {
  }

  // ---- win probability and execution, at capability and difficulty zero ----

  lemma WinsMoreOrLess(s: Signals)
    requires Unremarkable(s)
    ensures RawWinProbability(s.(requiresMultiDiscipline := true), 0.0, 0.0) == 0.57
    ensures RawWinProbability(s.(beginnerFriendly := true), 0.0, 0.0) == 0.72
    ensures RawWinProbability(s.(hasClearDeliverable := false), 0.0, 0.0) == 0.63
    ensures RawWinProbability(s.(redFlagCount := 1), 0.0, 0.0) == 0.67 && RawWinProbability(s.(redFlagCount := 2), 0.0, 0.0) == 0.57
    ensures RawWinProbability(s.(category := Analysis), 0.0, 0.0) == 0.67 && RawWinProbability(s.(category := Creative), 0.0, 0.0) == 0.51
    ensures RawWinProbability(s.(category := Development), 0.0, 0.0) == 0.59 && RawWinProbability(s.(category := Other), 0.0, 0.0) == 0.59
    ensures RawWinProbability(s.(payout := Some(100000.0)), 0.0, 0.0) == 0.59
    ensures RawWinProbability(s.(payout := Some(999.0)), 0.0, 0.0) == 0.62
  {
  }

  lemma ExecutesMoreOrLess(s: Signals, n: nat)
    requires Unremarkable(s)
    ensures RawExecution(s.(hasClearDeliverable := false), 0.0, 0.0) == 0.5
    ensures RawExecution(s.(beginnerFriendly := true), 0.0, 0.0) == 0.64
    ensures RawExecution(s.(noCodePreferred := true), 0.0, 0.0) == 0.62
    ensures RawExecution(s.(requiresExternalData := true), 0.0, 0.0) == 0.48
    ensures RawExecution(s.(redFlagCount := n), 0.0, 0.0) == 0.58 - if n < 4 then n as real * 0.04 else 0.16
  {
    assert n >= 4 ==> n as real >= 4.0;
    assert n < 4 ==> n as real <= 3.0;
  }

  // ---- payout and the combined scores ----

  /** The payout score is a step function: its value at each step and just before the next. */
  lemma PayoutSteps(p: real)
    ensures p <= 0.0 ==> PayoutScore(Some(p)) == 0.0
    ensures 0.0 < p < 1000.0 ==> PayoutScore(Some(p)) == 0.15
    ensures 1000.0 <= p < 5000.0 ==> PayoutScore(Some(p)) == 0.35
    ensures 5000.0 <= p < 10000.0 ==> PayoutScore(Some(p)) == 0.5
    ensures 10000.0 <= p < 50000.0 ==> PayoutScore(Some(p)) == 0.6
    ensures 50000.0 <= p < 100000.0 ==> PayoutScore(Some(p)) == 0.75
    ensures 100000.0 <= p < 250000.0 ==> PayoutScore(Some(p)) == 0.85
    ensures 250000.0 <= p < 500000.0 ==> PayoutScore(Some(p)) == 0.95
    ensures 500000.0 <= p ==> PayoutScore(Some(p)) == 1.0
    ensures PayoutScore(None) == 0.0
  {
  }

  lemma CombinedWeights()
    ensures ExpectedValue(1.0, 0.0, 0.0) == 0.45 && ExpectedValue(0.0, 1.0, 0.0) == 0.3 && ExpectedValue(0.0, 0.0, 1.0) == 0.25
    ensures Confidence(1.0, 0.0, 0.0, 0.0) == 0.5 && Confidence(0.0, 1.0, 0.0, 0.0) == 0.3 && Confidence(0.0, 0.0, 1.0, 0.0) == 0.2
    ensures Confidence(1.0, 1.0, 1.0, 1.0) == 0.55
  {
  }

  // ---- the checks ----

  /** What each check objects to. */
  predicate Objects(r: SkipReason, s: Signals, t: Thresholds, difficulty: real, execution: real) {
    match r
    case TerminalStatus =>
      || s.status == "completed" || s.status == "disputed" || s.status == "cancelled" || s.status == "canceled"
      || s.status == "closed" || s.status == "expired"
    case AssignedElsewhere => s.status == "assigned" && !s.alreadyAssignedToUs
    case UnsupportedStatus =>
      !(s.status == "open" || s.status == "created" || s.status == "active" || s.status == "available" || s.status == ""
        || s.status == "assigned")
    case PayoutTooLow => s.payout.Some? ==> s.payout.value < t.minPayout
    case MissingSpec => s.missingSpec
    case ExternalData => s.requiresExternalData
    case MultiDisciplineDevelopment => s.category == Development && s.requiresMultiDiscipline
    case TooManyRedFlags => s.redFlagCount > 2 && t.redFlagHardSkip
    case TooDifficult => difficulty > t.maxDifficulty
    case ExecutionTooUncertain => t.minExecution > execution
  }

  function Turn(r: SkipReason): nat {
    match r
    case TerminalStatus => 0
    case AssignedElsewhere => 1
    case UnsupportedStatus => 2
    case PayoutTooLow => 3
    case MissingSpec => 4
    case ExternalData => 5
    case MultiDisciplineDevelopment => 6
    case TooManyRedFlags => 7
    case TooDifficult => 8
    case ExecutionTooUncertain => 9
  }

  /** The reason given is that of the first check, in turn, that objects; none is given exactly when no check objects. */
  lemma FirstObjectionSpeaks(s: Signals, t: Thresholds, difficulty: real, execution: real, r: SkipReason)
    ensures HardSkip(s, t, difficulty, execution) == Some(r) <==>
              && Objects(r, s, t, difficulty, execution)
              && forall q: SkipReason :: Turn(q) < Turn(r) ==> !Objects(q, s, t, difficulty, execution)
    ensures HardSkip(s, t, difficulty, execution).None? ==> !Objects(r, s, t, difficulty, execution)
  {
    hide TerminalJob, OpenJob;
    StatusChecks(s.status);
    var given := HardSkip(s, t, difficulty, execution);
    if given.Some? {
      GivenObjects(s, t, difficulty, execution);
    }
  }

  lemma StatusChecks(status: string)
    ensures TerminalJob(status) <==>
              || status == "completed" || status == "disputed" || status == "cancelled" || status == "canceled"
              || status == "closed" || status == "expired"
    ensures OpenJob(status) <==>
              status == "open" || status == "created" || status == "active" || status == "available" || status == ""
  {
  }

  lemma GivenObjects(s: Signals, t: Thresholds, difficulty: real, execution: real)
    requires HardSkip(s, t, difficulty, execution).Some?
    ensures var r := HardSkip(s, t, difficulty, execution).value;
            && Objects(r, s, t, difficulty, execution)
            && forall q: SkipReason :: Turn(q) < Turn(r) ==> !Objects(q, s, t, difficulty, execution)
  {
    hide TerminalJob, OpenJob;
    StatusChecks(s.status);
  }

  /** A job is taken exactly when no check objects, the confidence reaches its threshold and the expected value 0.35. */
  lemma TakenExactly(s: Signals, t: Thresholds)
    ensures var x := ScoresOf(s, t);
            Evaluate(s, t).shouldApply <==>
              && (forall r: SkipReason :: !Objects(r, s, t, x.difficulty, x.execution))
              && x.confidence >= t.minConfidence && x.expectedValue >= 0.35
    ensures Evaluate(s, t).hardSkip == HardSkip(s, t, ScoresOf(s, t).difficulty, ScoresOf(s, t).execution)
  {
    hide ScoresOf, HardSkip, Objects;
    var x := ScoresOf(s, t);
    forall r: SkipReason
      ensures HardSkip(s, t, x.difficulty, x.execution).None? ==> !Objects(r, s, t, x.difficulty, x.execution)
    {
      FirstObjectionSpeaks(s, t, x.difficulty, x.execution, r);
    }
    if HardSkip(s, t, x.difficulty, x.execution).Some? {
      FirstObjectionSpeaks(s, t, x.difficulty, x.execution, HardSkip(s, t, x.difficulty, x.execution).value);
    }
  }
}

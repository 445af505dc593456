/** Whether to apply for a job: scores over the signals read from it, and the decision. */
module Strategy {
  import opened Basics

  datatype Category = Analysis | Research | Development | Creative | Other

  /** Configuration; the defaults are overridable from the environment, so nothing is known about the numbers. */
  datatype Thresholds = Thresholds(minConfidence: real, maxDifficulty: real, minExecution: real, minPayout: real,
                                   maxDurationDays: real, redFlagHardSkip: bool)

  /** What was read from the job; a payout that is not a finite number is None. */
  datatype Signals = Signals(
    status: string, category: Category, payout: Option<real>, durationDays: Option<real>,
    missingSpec: bool, vagueRequirements: bool, hasClearDeliverable: bool,
    redFlagCount: nat, clarityPositiveCount: nat,
    requiresMultiDiscipline: bool, requiresExternalData: bool, requiresStrictFormat: bool, highDepthExpected: bool,
    beginnerFriendly: bool, noCodePreferred: bool, likelyGoodFit: bool, alreadyAssignedToUs: bool)

  datatype SkipReason =
    | TerminalStatus | AssignedElsewhere | UnsupportedStatus | PayoutTooLow | MissingSpec | ExternalData
    | MultiDisciplineDevelopment | TooManyRedFlags | TooDifficult | ExecutionTooUncertain

  datatype Scores = Scores(payout: real, difficulty: real, capability: real, winProbability: real,
                           execution: real, expectedValue: real, confidence: real)

  datatype Decision = Decision(shouldApply: bool, hardSkip: Option<SkipReason>, scores: Scores)

  function Max(a: real, b: real): real { if a < b then b else a }
  function Min(a: real, b: real): real { if a < b then a else b }
  function Clamp(x: real): real { Max(0.0, Min(1.0, x)) }
  function When(b: bool, x: real): real { if b then x else 0.0 }

  // ---- the scores as sums ----

  function PayoutScore(payout: Option<real>): real {
    if payout.None? || payout.value <= 0.0 then 0.0
    else if payout.value >= 500000.0 then 1.0
    else if payout.value >= 250000.0 then 0.95
    else if payout.value >= 100000.0 then 0.85
    else if payout.value >= 50000.0 then 0.75
    else if payout.value >= 10000.0 then 0.6
    else if payout.value >= 5000.0 then 0.5
    else if payout.value >= 1000.0 then 0.35
    else 0.15
  }

  function DurationPenalty(days: Option<real>, t: Thresholds): real {
    match days
    case None => 0.0
    case Some(d) => if d < 1.0 then 0.2 else if d < 3.0 then 0.1 else if d > t.maxDurationDays then 0.15 else 0.0
  }

  function ScopePenalty(s: Signals): real {
    When(s.missingSpec, 0.35) + When(s.vagueRequirements, 0.2) + When(!s.hasClearDeliverable, 0.15)
    + When(s.requiresMultiDiscipline, 0.35)
  }

  function EffortPenalty(s: Signals): real {
    When(s.requiresExternalData, 0.25) + When(s.requiresStrictFormat, 0.15) + When(s.highDepthExpected, 0.2)
  }

  function RiskPenalty(s: Signals): real {
    Min(s.redFlagCount as real * 0.08, 0.32) + When(s.category == Creative, 0.08) + When(s.category == Development, 0.12)
  }

  function ClarityBonus(s: Signals): real {
    When(s.beginnerFriendly, 0.08) + When(s.noCodePreferred, 0.06)
    + When(s.clarityPositiveCount > 0, Min(s.clarityPositiveCount as real * 0.03, 0.12))
  }

  function RawDifficulty(s: Signals, t: Thresholds): real {
    0.1 + ScopePenalty(s) + EffortPenalty(s) + RiskPenalty(s) - ClarityBonus(s) + DurationPenalty(s.durationDays, t)
  }

  function BaseCapability(c: Category): real {
    match c
    case Analysis => 0.9
    case Research => 0.9
    case Development => 0.8
    case Creative => 0.6
    case Other => 0.45
  }

  function FitBonus(s: Signals): real {
    When(s.likelyGoodFit, 0.15) + When(s.beginnerFriendly, 0.1) + When(s.noCodePreferred, 0.08)
    + When(s.hasClearDeliverable, 0.08) + When(!s.vagueRequirements, 0.05)
  }

  function RawCapability(s: Signals): real {
    BaseCapability(s.category) + FitBonus(s)
    - When(s.requiresMultiDiscipline, 0.25) - When(s.requiresExternalData, 0.2)
    - When(s.requiresStrictFormat, 0.08) - When(s.highDepthExpected, 0.06)
    - When(s.category == Creative && s.highDepthExpected, 0.1)
  }

  function RawWinProbability(s: Signals, difficulty: real, capability: real): real {
    0.55
    - When(PayoutScore(s.payout) >= 0.85, 0.08) - When(PayoutScore(s.payout) <= 0.2, 0.05)
    + When(s.category == Analysis || s.category == Research, 0.08) - When(s.category == Creative, 0.08)
    - When(s.requiresMultiDiscipline, 0.1) - When(s.redFlagCount >= 2, 0.1)
    + When(s.beginnerFriendly, 0.05) + When(s.hasClearDeliverable, 0.04)
    + (capability - difficulty) * 0.35
  }

  function RawExecution(s: Signals, difficulty: real, capability: real): real {
    0.5 + capability * 0.45 - difficulty * 0.45
    + When(s.hasClearDeliverable, 0.08) + When(s.beginnerFriendly, 0.06) + When(s.noCodePreferred, 0.04)
    - When(s.requiresExternalData, 0.1) - When(s.redFlagCount > 0, Min(s.redFlagCount as real * 0.04, 0.16))
  }

  function ExpectedValue(payoutScore: real, winProbability: real, execution: real): real {
    Clamp(payoutScore * 0.45 + winProbability * 0.3 + execution * 0.25)
  }

  function Confidence(capability: real, execution: real, expectedValue: real, difficulty: real): real {
    Clamp(capability * 0.5 + execution * 0.3 + expectedValue * 0.2 - difficulty * 0.45)
  }

  function ScoresOf(s: Signals, t: Thresholds): Scores {
    var difficulty := Clamp(RawDifficulty(s, t));
    var capability := Clamp(RawCapability(s));
    var win := Clamp(RawWinProbability(s, difficulty, capability));
    var execution := Clamp(RawExecution(s, difficulty, capability));
    var ev := ExpectedValue(PayoutScore(s.payout), win, execution);
    Scores(PayoutScore(s.payout), difficulty, capability, win, execution, ev, Confidence(capability, execution, ev, difficulty))
  }

  predicate TerminalJob(status: string) {
    status in {"completed", "disputed", "cancelled", "canceled", "closed", "expired"}
  }

  predicate OpenJob(status: string) {
    status in {"open", "created", "active", "available", ""}
  }

  /** The first of the checks that fails. */
  function HardSkip(s: Signals, t: Thresholds, difficulty: real, execution: real): Option<SkipReason> {
    if TerminalJob(s.status) then Some(TerminalStatus)
    else if s.status == "assigned" && !s.alreadyAssignedToUs then Some(AssignedElsewhere)
    else if !OpenJob(s.status) && s.status != "assigned" then Some(UnsupportedStatus)
    else if s.payout.None? || s.payout.value < t.minPayout then Some(PayoutTooLow)
    else if s.missingSpec then Some(MissingSpec)
    else if s.requiresExternalData then Some(ExternalData)
    else if s.requiresMultiDiscipline && s.category == Development then Some(MultiDisciplineDevelopment)
    else if t.redFlagHardSkip && s.redFlagCount >= 3 then Some(TooManyRedFlags)
    else if difficulty > t.maxDifficulty then Some(TooDifficult)
    else if execution < t.minExecution then Some(ExecutionTooUncertain)
    else None
  }

  function Evaluate(s: Signals, t: Thresholds): Decision {
    var scores := ScoresOf(s, t);
    var hardSkip := HardSkip(s, t, scores.difficulty, scores.execution);
    Decision(hardSkip.None? && scores.confidence >= t.minConfidence && scores.expectedValue >= 0.35, hardSkip, scores)
  }

  // ---- the scores as they are accumulated ----

  method ComputeDifficulty(s: Signals, t: Thresholds) returns (r: real)
    ensures r == Clamp(RawDifficulty(s, t))
  {
    hide ScopePenalty, EffortPenalty, RiskPenalty, ClarityBonus, Clamp;
    var difficulty := AddPenalties(s, 0.1);
    difficulty := AddRisk(s, difficulty);
    difficulty := TakeClarity(s, difficulty);
    if s.durationDays.Some? {
      var days := s.durationDays.value;
      if days < 1.0 { difficulty := difficulty + 0.2; }
      else if days < 3.0 { difficulty := difficulty + 0.1; }
      else if days > t.maxDurationDays { difficulty := difficulty + 0.15; }
    }
    r := Clamp(difficulty);
  }

  method AddPenalties(s: Signals, start: real) returns (difficulty: real)
    ensures difficulty == start + ScopePenalty(s) + EffortPenalty(s)
  {
    difficulty := start;
    if s.missingSpec { difficulty := difficulty + 0.35; }
    if s.vagueRequirements { difficulty := difficulty + 0.2; }
    if !s.hasClearDeliverable { difficulty := difficulty + 0.15; }
    if s.requiresMultiDiscipline { difficulty := difficulty + 0.35; }
    assert difficulty == start + ScopePenalty(s);
    hide ScopePenalty;
    if s.requiresExternalData { difficulty := difficulty + 0.25; }
    if s.requiresStrictFormat { difficulty := difficulty + 0.15; }
    if s.highDepthExpected { difficulty := difficulty + 0.2; }
  }

  method AddRisk(s: Signals, start: real) returns (difficulty: real)
    ensures difficulty == start + RiskPenalty(s)
  {
    difficulty := start;
    difficulty := difficulty + Min(s.redFlagCount as real * 0.08, 0.32);
    if s.category == Creative { difficulty := difficulty + 0.08; }
    if s.category == Development { difficulty := difficulty + 0.12; }
  }

  method TakeClarity(s: Signals, start: real) returns (difficulty: real)
    ensures difficulty == start - ClarityBonus(s)
  {
    difficulty := start;
    if s.beginnerFriendly { difficulty := difficulty - 0.08; }
    if s.noCodePreferred { difficulty := difficulty - 0.06; }
    if s.clarityPositiveCount > 0 { difficulty := difficulty - Min(s.clarityPositiveCount as real * 0.03, 0.12); }
  }

  method ComputeCapability(s: Signals) returns (r: real)
    ensures r == Clamp(RawCapability(s))
  {
    var capability := BaseCapability(s.category);
    if s.likelyGoodFit { capability := capability + 0.15; }
    if s.beginnerFriendly { capability := capability + 0.1; }
    if s.noCodePreferred { capability := capability + 0.08; }
    if s.hasClearDeliverable { capability := capability + 0.08; }
    if !s.vagueRequirements { capability := capability + 0.05; }
    assert capability == BaseCapability(s.category) + FitBonus(s);
    hide FitBonus;
    if s.requiresMultiDiscipline { capability := capability - 0.25; }
    if s.requiresExternalData { capability := capability - 0.2; }
    if s.requiresStrictFormat { capability := capability - 0.08; }
    if s.highDepthExpected { capability := capability - 0.06; }
    if s.category == Creative && s.highDepthExpected { capability := capability - 0.1; }
    r := Clamp(capability);
  }

  method ComputeWinProbability(s: Signals, difficulty: real, capability: real) returns (r: real)
    ensures r == Clamp(RawWinProbability(s, difficulty, capability))
  {
    var win := 0.55;
    var payoutScore := PayoutScore(s.payout);
    if payoutScore >= 0.85 { win := win - 0.08; }
    if payoutScore <= 0.2 { win := win - 0.05; }
    if s.category == Analysis || s.category == Research { win := win + 0.08; }
    if s.category == Creative { win := win - 0.08; }
    if s.requiresMultiDiscipline { win := win - 0.1; }
    if s.redFlagCount >= 2 { win := win - 0.1; }
    if s.beginnerFriendly { win := win + 0.05; }
    if s.hasClearDeliverable { win := win + 0.04; }
    win := win + (capability - difficulty) * 0.35;
    r := Clamp(win);
  }

  method ComputeExecutionConfidence(s: Signals, difficulty: real, capability: real) returns (r: real)
    ensures r == Clamp(RawExecution(s, difficulty, capability))
  {
    var confidence := 0.5;
    confidence := confidence + capability * 0.45;
    confidence := confidence - difficulty * 0.45;
    if s.hasClearDeliverable { confidence := confidence + 0.08; }
    if s.beginnerFriendly { confidence := confidence + 0.06; }
    if s.noCodePreferred { confidence := confidence + 0.04; }
    if s.requiresExternalData { confidence := confidence - 0.1; }
    if s.redFlagCount > 0 { confidence := confidence - Min(s.redFlagCount as real * 0.04, 0.16); }
    r := Clamp(confidence);
  }

  method EvaluateJobStrategy(s: Signals, t: Thresholds) returns (d: Decision)
    ensures d == Evaluate(s, t)
  {
    hide RawDifficulty, RawCapability, RawWinProbability, RawExecution, Clamp, HardSkip, PayoutScore;
    var payoutScore := PayoutScore(s.payout);
    var difficulty := ComputeDifficulty(s, t);
    var capability := ComputeCapability(s);
    var win := ComputeWinProbability(s, difficulty, capability);
    var execution := ComputeExecutionConfidence(s, difficulty, capability);
    var ev := ExpectedValue(payoutScore, win, execution);
    var confidence := Confidence(capability, execution, ev, difficulty);
    var hardSkip := HardSkip(s, t, difficulty, execution);
    d := Decision(hardSkip.None? && confidence >= t.minConfidence && ev >= 0.35, hardSkip,
                  Scores(payoutScore, difficulty, capability, win, execution, ev, confidence));
  }

  // ---- better jobs ----

  /** No signal of `b` is worse than in `a`; status, category and duration are the same. */
  predicate NoWorse(a: Signals, b: Signals) {
    && a.status == b.status && a.category == b.category && a.durationDays == b.durationDays
    && (a.payout.Some? ==> b.payout.Some? && a.payout.value <= b.payout.value)
    && (b.missingSpec ==> a.missingSpec) && (b.vagueRequirements ==> a.vagueRequirements)
    && (a.hasClearDeliverable ==> b.hasClearDeliverable)
    && b.redFlagCount <= a.redFlagCount && a.clarityPositiveCount <= b.clarityPositiveCount
    && (b.requiresMultiDiscipline ==> a.requiresMultiDiscipline) && (b.requiresExternalData ==> a.requiresExternalData)
    && (b.requiresStrictFormat ==> a.requiresStrictFormat) && (b.highDepthExpected ==> a.highDepthExpected)
    && (a.beginnerFriendly ==> b.beginnerFriendly) && (a.noCodePreferred ==> b.noCodePreferred)
    && (a.likelyGoodFit ==> b.likelyGoodFit) && (a.alreadyAssignedToUs ==> b.alreadyAssignedToUs)
  }

  lemma ClampIsMonotone(x: real, y: real)
    requires x <= y
    ensures 0.0 <= Clamp(x) <= Clamp(y) <= 1.0
    ensures Clamp(y) - Clamp(x) <= y - x
  {
  }

  lemma DifficultyFalls(a: Signals, b: Signals, t: Thresholds)
    requires NoWorse(a, b)
    ensures RawDifficulty(b, t) <= RawDifficulty(a, t)
  {
    assert ScopePenalty(b) <= ScopePenalty(a) && EffortPenalty(b) <= EffortPenalty(a);
    hide ScopePenalty, EffortPenalty;
    RiskFalls(a, b);
    ClarityRises(a, b);
    hide RiskPenalty, ClarityBonus;
  }

  lemma RiskFalls(a: Signals, b: Signals)
    requires NoWorse(a, b)
    ensures RiskPenalty(b) <= RiskPenalty(a)
  {
    assert b.redFlagCount as real <= a.redFlagCount as real;
  }

  lemma ClarityRises(a: Signals, b: Signals)
    requires NoWorse(a, b)
    ensures ClarityBonus(a) <= ClarityBonus(b)
  {
    assert a.clarityPositiveCount as real <= b.clarityPositiveCount as real;
  }

  lemma CapabilityRises(a: Signals, b: Signals)
    requires NoWorse(a, b)
    ensures RawCapability(a) <= RawCapability(b)
  {
  }

  lemma ExecutionRises(a: Signals, b: Signals, da: real, db: real, ca: real, cb: real)
    requires NoWorse(a, b) && db <= da && ca <= cb
    ensures RawExecution(a, da, ca) <= RawExecution(b, db, cb)
  {
    assert b.redFlagCount as real <= a.redFlagCount as real;
  }

  lemma PayoutScoreRises(a: Signals, b: Signals)
    requires NoWorse(a, b)
    ensures PayoutScore(a.payout) <= PayoutScore(b.payout)
    ensures PayoutScore(a.payout) < 0.85 <= PayoutScore(b.payout) ==> PayoutScore(b.payout) - PayoutScore(a.payout) >= 0.1
  {
  }

  /** The win probability of a better job is lower at most by the rebate for contested payouts, and only if the
      payout score reaches 0.85 just now. */
  lemma WinProbabilityNearlyRises(a: Signals, b: Signals, da: real, db: real, ca: real, cb: real)
    requires NoWorse(a, b) && db <= da && ca <= cb
    ensures RawWinProbability(a, da, ca)
            <= RawWinProbability(b, db, cb) + When(PayoutScore(a.payout) < 0.85 <= PayoutScore(b.payout), 0.08)
  {
    hide PayoutScore;
    PayoutScoreRises(a, b);
    assert ca * 0.35 <= cb * 0.35 && db * 0.35 <= da * 0.35;
  }

  lemma ExpectedValueRises(a: Signals, b: Signals, wa: real, wb: real, ea: real, eb: real)
    requires NoWorse(a, b) && ea <= eb
    requires wa <= wb + When(PayoutScore(a.payout) < 0.85 <= PayoutScore(b.payout), 0.08)
    ensures ExpectedValue(PayoutScore(a.payout), wa, ea) <= ExpectedValue(PayoutScore(b.payout), wb, eb)
  {
    hide PayoutScore, Clamp;
    PayoutScoreRises(a, b);
    ClampIsMonotone(PayoutScore(a.payout) * 0.45 + wa * 0.3 + ea * 0.25, PayoutScore(b.payout) * 0.45 + wb * 0.3 + eb * 0.25);
  }

  lemma ConfidenceRises(ca: real, cb: real, ea: real, eb: real, va: real, vb: real, da: real, db: real)
    requires ca <= cb && ea <= eb && va <= vb && db <= da
    ensures Confidence(ca, ea, va, da) <= Confidence(cb, eb, vb, db)
  {
    hide Clamp;
    ClampIsMonotone(ca * 0.5 + ea * 0.3 + va * 0.2 - da * 0.45, cb * 0.5 + eb * 0.3 + vb * 0.2 - db * 0.45);
  }

  /** All scores but the win probability move in the job's favour. */
  lemma ScoresImprove(a: Signals, b: Signals, t: Thresholds)
    requires NoWorse(a, b)
    ensures var x, y := ScoresOf(a, t), ScoresOf(b, t);
            && x.payout <= y.payout && y.difficulty <= x.difficulty && x.capability <= y.capability
            && x.execution <= y.execution && x.expectedValue <= y.expectedValue && x.confidence <= y.confidence
            && x.winProbability <= y.winProbability + When(x.payout < 0.85 <= y.payout, 0.08)
  {
    hide RawDifficulty, RawCapability, RawWinProbability, RawExecution, Clamp, PayoutScore, ExpectedValue, Confidence, NoWorse;
    var x, y := ScoresOf(a, t), ScoresOf(b, t);
    PayoutScoreRises(a, b);
    DifficultyFalls(a, b, t);
    ClampIsMonotone(RawDifficulty(b, t), RawDifficulty(a, t));
    CapabilityRises(a, b);
    ClampIsMonotone(RawCapability(a), RawCapability(b));
    ExecutionRises(a, b, x.difficulty, y.difficulty, x.capability, y.capability);
    ClampIsMonotone(RawExecution(a, x.difficulty, x.capability), RawExecution(b, y.difficulty, y.capability));
    WinProbabilityNearlyRises(a, b, x.difficulty, y.difficulty, x.capability, y.capability);
    ClampedNearly(RawWinProbability(a, x.difficulty, x.capability), RawWinProbability(b, y.difficulty, y.capability),
                  When(x.payout < 0.85 <= y.payout, 0.08));
    ExpectedValueRises(a, b, x.winProbability, y.winProbability, x.execution, y.execution);
    ConfidenceRises(x.capability, y.capability, x.execution, y.execution, x.expectedValue, y.expectedValue, x.difficulty, y.difficulty);
  }

  lemma ClampedNearly(x: real, y: real, slack: real)
    requires x <= y + slack && 0.0 <= slack
    ensures Clamp(x) <= Clamp(y) + slack
  {
  }

  lemma SkipsNoBetterJob(a: Signals, b: Signals, t: Thresholds, da: real, db: real, ea: real, eb: real)
    requires NoWorse(a, b) && db <= da && ea <= eb
    ensures HardSkip(a, t, da, ea).None? ==> HardSkip(b, t, db, eb).None?
  {
  }

  /** Whatever the thresholds: a job that would be taken is still taken when it pays more or any other signal improves. */
  lemma DecisionIsMonotone(a: Signals, b: Signals, t: Thresholds)
    requires NoWorse(a, b)
    ensures Evaluate(a, t).shouldApply ==> Evaluate(b, t).shouldApply
  {
    hide ScoresOf, HardSkip, NoWorse;
    ScoresImprove(a, b, t);
    SkipsNoBetterJob(a, b, t, ScoresOf(a, t).difficulty, ScoresOf(b, t).difficulty, ScoresOf(a, t).execution, ScoresOf(b, t).execution);
  }

  lemma PayoutIsNoDifficulty(s: Signals, payout: Option<real>, t: Thresholds)
    ensures RawDifficulty(s.(payout := payout), t) == RawDifficulty(s, t)
    ensures RawCapability(s.(payout := payout)) == RawCapability(s)
  {
    var r := s.(payout := payout);
    assert ScopePenalty(r) == ScopePenalty(s) && EffortPenalty(r) == EffortPenalty(s);
    assert RiskPenalty(r) == RiskPenalty(s) && ClarityBonus(r) == ClarityBonus(s) && FitBonus(r) == FitBonus(s);
    hide ScopePenalty, EffortPenalty, RiskPenalty, ClarityBonus, FitBonus;
  }

  /** The win probability alone is not monotone: it drops when the payout reaches a hundred thousand. */
  lemma WinProbabilityCanDrop(s: Signals, t: Thresholds)
    requires s.category == Other && s.payout == Some(99999.0) && s.redFlagCount == 0 && !s.requiresMultiDiscipline
    ensures var richer := s.(payout := Some(100000.0));
            NoWorse(s, richer) && ScoresOf(richer, t).winProbability < ScoresOf(s, t).winProbability
  {
    PayoutIsNoDifficulty(s, Some(100000.0), t);
    hide RawDifficulty, RawCapability;
    var x := ScoresOf(s, t);
    assert 0.0 <= x.difficulty <= 1.0 && 0.0 <= x.capability <= 1.0;
  }

  /** Every score is a proportion. */
  lemma ScoresAreProportions(s: Signals, t: Thresholds)
    ensures var x := ScoresOf(s, t);
            && 0.0 <= x.payout <= 1.0 && 0.0 <= x.difficulty <= 1.0 && 0.0 <= x.capability <= 1.0
            && 0.0 <= x.winProbability <= 1.0 && 0.0 <= x.execution <= 1.0
            && 0.0 <= x.expectedValue <= 1.0 && 0.0 <= x.confidence <= 1.0
  {
    hide RawDifficulty, RawCapability, RawWinProbability, RawExecution;
  }

  /** The job is taken exactly when it is open or assigned to us, and passes every check, in whatever order. */
  lemma AppliesExactly(s: Signals, t: Thresholds)
    ensures var x := ScoresOf(s, t);
            Evaluate(s, t).shouldApply <==>
              && (OpenJob(s.status) || (s.status == "assigned" && s.alreadyAssignedToUs))
              && s.payout.Some? && s.payout.value >= t.minPayout
              && !s.missingSpec && !s.requiresExternalData
              && !(s.requiresMultiDiscipline && s.category == Development)
              && !(t.redFlagHardSkip && s.redFlagCount >= 3)
              && x.difficulty <= t.maxDifficulty && x.execution >= t.minExecution
              && x.confidence >= t.minConfidence && x.expectedValue >= 0.35
  {
    hide ScoresOf;
    OpenIsNotTerminal(s.status);
  }

  lemma OpenIsNotTerminal(status: string)
    ensures OpenJob(status) || status == "assigned" ==> !TerminalJob(status)
  {
    var open, terminal := ["open", "created", "active", "available", "", "assigned"],
                          ["completed", "disputed", "cancelled", "canceled", "closed", "expired"];
    assert forall i, j :: 0 <= i < |open| && 0 <= j < |terminal| ==>
      |open[i]| != |terminal[j]| || open[i][0] != terminal[j][0] || open[i][1] != terminal[j][1];
  }
}

/** The fail-closed gates in front of every unsigned package. */
module ReviewGates {
  import opened PhaseModel
  import opened ProcState

  datatype Failure =
    | WrongPhase(actual: ChainPhase)
    | MissingFile(file: File)
    | MissingField(file: File, field: string)
    | WrongValue(file: File, field: string)

  /** Every gate calls a helper that compares one JSON field with a required value. No file of the repository defines
      it, so evaluating its name throws; `Defined` is the helper the call sites ask for. */
  datatype Helper = Undefined | Defined

  /** Result of running a gate through checkGate: an exception other than a gate error is reported as unknown. */
  datatype Verdict = Passed | Failed(failures: seq<Failure>) | Unknown

  // ---- the elementary checks, each a list of zero or one failure ----

  function RequirePhase(d: Deadlines, now: int, p: ChainPhase): seq<Failure> {
    if DeriveChainPhase(d, now) != p then [WrongPhase(DeriveChainPhase(d, now))] else []
  }

  function RequireFile(disk: Disk, f: File): seq<Failure> {
    if f in disk then [] else [MissingFile(f)]
  }

  /** `present` says whether the field is there and truthy; a missing file has no fields. */
  function RequireField(disk: Disk, f: File, field: string, present: Content -> bool): seq<Failure> {
    if f in disk && present(disk[f]) then [] else [MissingField(f, field)]
  }

  function RequireValue(disk: Disk, f: File, field: string, equal: Content -> bool): seq<Failure> {
    if f in disk && equal(disk[f]) then [] else [WrongValue(f, field)]
  }

  function Report(failures: seq<Failure>, helper: Helper): Verdict {
    if helper == Undefined then Unknown
    else if |failures| > 0 then Failed(failures)
    else Passed
  }

  // ---- what the fields are ----

  function HasMaterial(c: Content): bool { c.MaterialC? }
  function HasUri(c: Content): bool {
    (c.PayloadC? && c.uri != []) || (c.MaterialC? && c.material.uri != []) || (c.TrialUriC? && c.uri != [])
  }
  function FitPasses(c: Content): bool { c.FitC? && c.pass }
  function VerificationPasses(c: Content): bool { c.VerificationC? && c.passed }
  function BalanceSuffices(c: Content): bool { c.PreflightC? && c.balance }
  function AllowanceSuffices(c: Content): bool { c.PreflightC? && c.allowance }
  function StateShortlisted(c: Content): bool { c.StateC? && c.record.body.shortlisted }
  function FetchbackVerified(c: Content): bool { c.FetchbackC? && c.verified }

  // ---- what each gate demands ----

  predicate CommitConditions(disk: Disk, d: Deadlines, now: int) {
    && DeriveChainPhase(d, now) == CommitOpen
    && Brief in disk
    && Payload in disk && HasUri(disk[Payload])
    && CommitmentMaterial in disk && HasMaterial(disk[CommitmentMaterial])
    && FitEvaluation in disk && FitPasses(disk[FitEvaluation])
  }

  predicate RevealConditions(disk: Disk, d: Deadlines, now: int) {
    && DeriveChainPhase(d, now) == RevealOpen
    && CommitmentMaterial in disk && HasMaterial(disk[CommitmentMaterial]) && HasUri(disk[CommitmentMaterial])
    && CommitmentVerification in disk && VerificationPasses(disk[CommitmentVerification])
    && RevealPayload in disk
  }

  predicate FinalistConditions(disk: Disk, d: Deadlines, now: int) {
    && DeriveChainPhase(d, now) == FinalistAccept
    && AcceptancePacket in disk && StakeRequirements in disk && TrialPlan in disk && FinalistManifest in disk
    && StakePreflight in disk && BalanceSuffices(disk[StakePreflight]) && AllowanceSuffices(disk[StakePreflight])
    && StateJson in disk && StateShortlisted(disk[StateJson])
  }

  predicate TrialConditions(disk: Disk, d: Deadlines, now: int) {
    && DeriveChainPhase(d, now) == TrialOpen
    && TrialManifest in disk && HasUri(disk[TrialManifest])
    && PublicationRecord in disk && TrialReviewManifest in disk
    && FetchbackVerification in disk && FetchbackVerified(disk[FetchbackVerification])
  }

  // ---- the gates ----

  method AssertCommitGate(dir: ProcDir, d: Deadlines, now: int, helper: Helper) returns (v: Verdict)
    ensures v.Passed? <==> helper == Defined && CommitConditions(dir.disk, d, now)
    ensures v.Unknown? <==> helper == Undefined
  {
    var failures := RequirePhase(d, now, CommitOpen);
    failures := failures + RequireFile(dir.disk, Brief);
    failures := failures + RequireFile(dir.disk, Payload);
    failures := failures + RequireFile(dir.disk, CommitmentMaterial);
    failures := failures + RequireField(dir.disk, Payload, "applicationURI", HasUri);
    failures := failures + RequireField(dir.disk, CommitmentMaterial, "salt", HasMaterial);
    failures := failures + RequireField(dir.disk, CommitmentMaterial, "commitmentHash", HasMaterial);
    failures := failures + RequireFile(dir.disk, FitEvaluation);
    if helper == Undefined {
      return Unknown;
    }
    failures := failures + RequireValue(dir.disk, FitEvaluation, "decision", FitPasses);
    v := Report(failures, helper);
  }

  method AssertRevealGate(dir: ProcDir, d: Deadlines, now: int, helper: Helper) returns (v: Verdict)
    ensures v.Passed? <==> helper == Defined && RevealConditions(dir.disk, d, now)
    ensures v.Unknown? <==> helper == Undefined
  {
    var failures := RequirePhase(d, now, RevealOpen);
    failures := failures + RequireFile(dir.disk, CommitmentMaterial);
    failures := failures + RequireField(dir.disk, CommitmentMaterial, "salt", HasMaterial);
    failures := failures + RequireField(dir.disk, CommitmentMaterial, "applicationURI", HasUri);
    failures := failures + RequireField(dir.disk, CommitmentMaterial, "commitmentHash", HasMaterial);
    failures := failures + RequireFile(dir.disk, CommitmentVerification);
    if helper == Undefined {
      return Unknown;
    }
    failures := failures + RequireValue(dir.disk, CommitmentVerification, "verificationPassed", VerificationPasses);
    failures := failures + RequireFile(dir.disk, RevealPayload);
    v := Report(failures, helper);
  }

  method AssertFinalistAcceptGate(dir: ProcDir, d: Deadlines, now: int, helper: Helper) returns (v: Verdict)
    ensures v.Passed? <==> helper == Defined && FinalistConditions(dir.disk, d, now)
    ensures v.Unknown? <==> helper == Undefined
  {
    var failures := RequirePhase(d, now, FinalistAccept);
    failures := failures + RequireFile(dir.disk, AcceptancePacket);
    failures := failures + RequireFile(dir.disk, StakeRequirements);
    failures := failures + RequireFile(dir.disk, StakePreflight);
    failures := failures + RequireFile(dir.disk, TrialPlan);
    failures := failures + RequireFile(dir.disk, FinalistManifest);
    if helper == Undefined {
      return Unknown;
    }
    failures := failures + RequireValue(dir.disk, StakePreflight, "hasSufficientBalance", BalanceSuffices);
    failures := failures + RequireValue(dir.disk, StakePreflight, "allowanceSufficient", AllowanceSuffices);
    failures := failures + RequireFile(dir.disk, StateJson);
    failures := failures + RequireValue(dir.disk, StateJson, "shortlisted", StateShortlisted);
    v := Report(failures, helper);
  }

  method AssertTrialSubmitGate(dir: ProcDir, d: Deadlines, now: int, helper: Helper) returns (v: Verdict)
    ensures v.Passed? <==> helper == Defined && TrialConditions(dir.disk, d, now)
    ensures v.Unknown? <==> helper == Undefined
  {
    var failures := RequirePhase(d, now, TrialOpen);
    failures := failures + RequireFile(dir.disk, TrialManifest);
    failures := failures + RequireFile(dir.disk, PublicationRecord);
    failures := failures + RequireFile(dir.disk, FetchbackVerification);
    failures := failures + RequireFile(dir.disk, TrialReviewManifest);
    failures := failures + RequireField(dir.disk, TrialManifest, "trialURI", HasUri);
    if helper == Undefined {
      return Unknown;
    }
    failures := failures + RequireValue(dir.disk, FetchbackVerification, "verified", FetchbackVerified);
    if FetchbackVerification in dir.disk && !FetchbackVerified(dir.disk[FetchbackVerification]) {
      failures := failures + [WrongValue(FetchbackVerification, "verified")];
    }
    v := Report(failures, helper);
  }
}

/** What one call of the orchestrator writes, in order, as a function of the files and of the outside world.
    `Orchestrator` carries these lists out; a crash leaves any prefix of them. */
module Handlers {
  import opened Basics
  import opened PhaseModel
  import opened Commitments
  import opened ProcState
  import opened NextAction
  import opened ReviewGates

  /** Answers of everything outside the procurement directory during one call. */
  datatype Env = Env(
    now: int,                    // clock read when the call starts
    gateNow: int,                // clock read inside the gate
    chain: Option<Deadlines>,    // procurement struct, None if the chain read failed
    agent: Option<Address>, subdomain: bool, dryRun: bool,
    helper: Helper,
    inspectionOk: bool, jobId: string, fitPass: bool,
    mcp: bool, specFetched: bool, // a spec service is configured; it returned the linked job's spec
    retrievalOk: bool, archiveHit: bool, contentOk: bool, llm: bool,
    pinned: Option<Uri>, salt: Bytes32,
    encodingOk: bool,            // ABI encoding of the call succeeded
    fetchback: bool, archiveOk: bool)

  datatype Outcome = Skip | IntegrityThrow | ChainError | DryRun | Noop | Blocked | HandlerError | Unhandled | Advanced

  datatype Trace = Trace(writes: seq<Write>, outcome: Outcome)

  function NoteWrite(path: string): Write {
    Write(Note(path), Text)
  }

  function WithOther(key: string): Patch {
    NO_PATCH.(other := map[key := "set"])
  }

  /** The writes so far, then a checked transition on disk `d`. */
  function ThenTransition(done: seq<Write>, d: Disk, s: Status, extra: Patch): Trace {
    match TransitionState(ReadState(d), s, extra)
    case Ok(r) => Trace(done + [StateWrite(r)], Advanced)
    case Err(_) => Trace(done, HandlerError)
  }

  function ThenSet(done: seq<Write>, d: Disk, p: Patch): Trace {
    match SetState(ReadState(d), p)
    case Ok(r) => Trace(done + [StateWrite(r)], Advanced)
    case Err(_) => Trace(done, HandlerError)
  }

  // ---- artifact bundles ----

  const INSPECTION_BUNDLE := [Write(ProcurementSnapshot, Text), NoteWrite("inspection/linked_job_snapshot.json"),
                              NoteWrite("inspection/deadlines_and_windows.json"), NoteWrite("inspection/phase_snapshot.json")]

  function FitBundle(jobSpec: bool, fitPass: bool): seq<Write> {
    (if jobSpec then [Write(NORMALIZED_SPEC, Text)] else [])
    + [Write(FitEvaluation, FitC(fitPass)), NoteWrite("inspection/next_action.json"), NoteWrite("inspection/review_manifest.json")]
  }

  /** The retrieval packet of a phase; an empty one is written again with the reason. */
  function RetrievalBundle(phase: string, found: bool): seq<Write> {
    var packet := [NoteWrite("retrieval/retrieval_packet.json"), NoteWrite("retrieval/retrieval_packet_" + phase + ".json")];
    if found then packet else packet + packet
  }

  /** What generating the content of a phase writes: its own retrieval packet, the audit entry of a language model call,
      the text and a log. */
  function ContentBundle(phase: string, text: File, env: Env): seq<Write> {
    RetrievalBundle(phase, env.archiveHit)
    + (if env.llm then [NoteWrite("llm_audit.json")] else [])
    + [Write(text, Text), NoteWrite(phase + "/content_generation_log.json")]
  }

  /** The retrieval packet written by the handler, then the generated application. */
  function DraftContent(env: Env): seq<Write> {
    RetrievalBundle("application", env.archiveHit) + ContentBundle("application", Brief, env)
  }

  function TrialContent(env: Env): seq<Write> {
    RetrievalBundle("trial", env.archiveHit) + ContentBundle("trial", Note("trial/trial_deliverable.md"), env)
  }

  const EXECUTION_STATE := Note("linked_job_execution_state.json")
  const LINKED_JOB_SPEC := Note("completion/linked_job_spec.json")
  const NORMALIZED_SPEC := Note("inspection/normalized_job_spec.json")
  const ARCHIVE_RECORD := Note("trial/completion_archive_record.json")

  predicate Linked(b: Body) {
    b.linkedJobId.Some? && b.linkedJobId.value != ""
  }

  /** Fetching the linked job's spec; a failure is caught and writes nothing. Files of the job's own directory are kept
      under `job/`. */
  function SpecFetch(d: Disk, linked: bool, env: Env): seq<Write> {
    if !linked || !env.mcp || !env.specFetched then []
    else [Write(LINKED_JOB_SPEC, Text), NoteWrite("job/raw_spec.json")]
         + (if EXECUTION_STATE in d then [Write(EXECUTION_STATE, Text)] else [])
  }

  function ApplicationBundle(m: Material): seq<Write> {
    [Write(Brief, Text), Write(Payload, PayloadC(m.uri)), NoteWrite("application/capability_claims.json"),
     NoteWrite("application/evidence_manifest.json"), Write(CommitmentMaterial, MaterialC(m)),
     NoteWrite("application/review_manifest.json")]
  }

  function RevealBundle(m: Material, verified: bool): seq<Write> {
    [Write(RevealPayload, RevealPayloadC(m.uri, m.salt)), Write(CommitmentVerification, VerificationC(verified)),
     NoteWrite("reveal/review_manifest.json")]
  }

  const FINALIST_BUNDLE := [Write(AcceptancePacket, Text), Write(StakeRequirements, Text), Write(TrialPlan, Text),
                            Write(StakePreflight, PreflightC(false, false)), Write(FinalistManifest, Text)]

  function TrialBundle(uri: Uri, verified: bool): seq<Write> {
    [Write(TrialManifest, TrialUriC(uri)), Write(PublicationRecord, TrialUriC(uri)),
     Write(FetchbackVerification, FetchbackC(verified)), NoteWrite("trial/retrieval_packet.json"),
     NoteWrite("trial/decomposition_plan.json"), NoteWrite("trial/validator_packet.json"),
     NoteWrite("trial/draft.md"), NoteWrite("trial/final.md"), Write(TrialReviewManifest, Text)]
  }

  // ---- the handlers ----

  function InspectTrace(d: Disk, env: Env): Trace {
    if !env.inspectionOk then Trace([], HandlerError)
    else ThenSet(INSPECTION_BUNDLE, d,
                 WithOther("lastChainSync").(status := Some(Inspected), linkedJobId := Some(Some(env.jobId))))
  }

  function EvaluateFitTrace(d: Disk, env: Env): Trace {
    if ProcurementSnapshot !in d then Trace([], Blocked)
    else FitTrace(d, env, ReadState(d).Some? && Linked(ReadState(d).value.body))
  }

  /** The spec is fetched only if there is no normalized one yet. */
  function FitTrace(d: Disk, env: Env, linked: bool): Trace {
    var fetched := if NORMALIZED_SPEC in d then [] else SpecFetch(d, linked, env);
    var jobSpec := NORMALIZED_SPEC in d || (linked && env.mcp && LINKED_JOB_SPEC in ApplyAll(d, fetched));
    ThenSet(fetched + FitBundle(jobSpec, env.fitPass), d, WithOther("fitScore").(fitEvaluated := Some(true)))
  }

  /** The commitment material an application drafted in this call is bound to. */
  function DraftedMaterial(id: UInt256, agent: Address, uri: Uri, salt: Bytes32): Material {
    Material(agent, uri, salt, ComputeCommitment(id, agent, uri, salt), None, None)
  }

  function DraftTrace(id: UInt256, d: Disk, env: Env): Trace {
    if env.agent.None? || !env.subdomain then Trace([], Blocked)
    else if !env.retrievalOk then Trace([], HandlerError)
    else
      if !env.contentOk then Trace(RetrievalBundle("application", env.archiveHit), HandlerError)
      else if env.pinned.None? then Trace(DraftContent(env), Blocked)
      else DraftedTrace(d, env, DraftedMaterial(id, env.agent.value, env.pinned.value, env.salt))
  }

  function DraftedTrace(d: Disk, env: Env, m: Material): Trace {
    var bundle := DraftContent(env) + ApplicationBundle(m);
    if !env.encodingOk then Trace(bundle, HandlerError)
    else
      CommitReadyTrace(bundle + [Write(CommitTx, CommitTxC(m.hash))], d, m)
  }

  /** The three state writes after a fresh commit package: drafted with the commitment, ready, package recorded. */
  function CommitReadyTrace(done: seq<Write>, d: Disk, m: Material): Trace {
    match TransitionState(ReadState(d), ApplicationDrafted, NO_PATCH.(commitment := Some((m.uri, m.salt, m.hash))))
    case Err(_) => Trace(done, HandlerError)
    case Ok(drafted) =>
      match TransitionState(Some(drafted), CommitReady, NO_PATCH)
      case Err(_) => Trace(done + [StateWrite(drafted)], HandlerError)
      case Ok(ready) =>
        ThenSet(done + [StateWrite(drafted), StateWrite(ready)], Apply(d, StateWrite(ready)), WithOther("txHandoffs"))
  }

  function BuildCommitTrace(d: Disk, dl: Deadlines, env: Env): Trace {
    if env.helper == Undefined || !CommitConditions(d, dl, env.gateNow) then Trace([], Blocked)
    else
      match ReadState(d)
      case None => Trace([], HandlerError)
      case Some(r) =>
        if r.body.commitmentHash.None? || !env.encodingOk then Trace([], HandlerError)
        else ThenTransition([Write(CommitTx, CommitTxC(r.body.commitmentHash.value))], d, CommitReady, NO_PATCH)
  }

  function BuildRevealTrace(id: UInt256, d: Disk, dl: Deadlines, env: Env): Trace {
    match ReadMaterial(d)
    case None => Trace([], Blocked)
    case Some(m) =>
      var verified := ComputeCommitment(id, m.agent, m.uri, m.salt) == m.hash;
      var bundle := RevealBundle(m, verified);
      if !verified then Trace(bundle, Blocked)
      else if env.helper == Undefined || !RevealConditions(ApplyAll(d, bundle), dl, env.gateNow) then Trace(bundle, Blocked)
      else if !env.encodingOk then Trace(bundle, HandlerError)
      else ThenTransition(bundle + [Write(RevealTx, RevealTxC(m.uri, m.salt))], d, RevealReady, NO_PATCH)
  }

  function BuildFinalistTrace(d: Disk, dl: Deadlines, env: Env): Trace {
    if env.helper == Undefined || !FinalistConditions(ApplyAll(d, FINALIST_BUNDLE), dl, env.gateNow)
    then Trace(FINALIST_BUNDLE, Blocked)
    else if !env.encodingOk then Trace(FINALIST_BUNDLE, HandlerError)
    else ThenTransition(FINALIST_BUNDLE + [Write(FinalistTx, Text)], d, FinalistAcceptReady, NO_PATCH)
  }

  function BuildTrialTrace(d: Disk, dl: Deadlines, env: Env): Trace {
    match ReadState(d)
    case None => Trace([], HandlerError)
    case Some(r) =>
      if r.body.status == FinalistAcceptSubmitted then
        match TransitionState(Some(r), TrialInProgress, NO_PATCH)
        case Err(_) => Trace([], HandlerError)
        case Ok(working) => TrialWorkTrace([StateWrite(working)], Apply(d, StateWrite(working)), dl, env)
      else TrialWorkTrace([], d, dl, env)
  }

  function TrialWorkTrace(done: seq<Write>, d: Disk, dl: Deadlines, env: Env): Trace {
    if !env.retrievalOk then Trace(done, HandlerError)
    else
      if !env.contentOk then Trace(done + RetrievalBundle("trial", env.archiveHit), HandlerError)
      else if env.pinned.None? then Trace(done + TrialContent(env), Blocked)
      else TrialPackageTrace(done + TrialContent(env), ApplyAll(d, TrialContent(env)), dl, env, env.pinned.value)
  }

  function TrialPackageTrace(done: seq<Write>, d: Disk, dl: Deadlines, env: Env, uri: Uri): Trace {
    var bundle := TrialBundle(uri, env.fetchback);
    var bundled := done + bundle;
    if env.helper == Undefined || !TrialConditions(ApplyAll(d, bundle), dl, env.gateNow) then Trace(bundled, Blocked)
    else if !env.encodingOk then Trace(bundled, HandlerError)
    else TrialReadyTrace(bundled + [Write(TrialTx, TrialUriC(uri))], d, env)
  }

  /** The archive record of a trial, with its stepping stone, unless there is one already. */
  function TrialArchive(recorded: bool): seq<Write> {
    if recorded then [] else [NoteWrite("retrieval/stepping_stone_trial.json"), Write(ARCHIVE_RECORD, Text)]
  }

  /** After the trial package: URI recorded, archive updated, status ready. */
  function TrialReadyTrace(done: seq<Write>, d: Disk, env: Env): Trace {
    match SetState(ReadState(d), WithOther("trialURI"))
    case Err(_) => Trace(done, HandlerError)
    case Ok(r) =>
      if !env.archiveOk then Trace(done + [StateWrite(r)], HandlerError)
      else ThenTransition(done + [StateWrite(r)] + TrialArchive(ARCHIVE_RECORD in d), Apply(d, StateWrite(r)), TrialReady, NO_PATCH)
  }

  const BRIDGE := [NoteWrite("selection_to_execution_bridge.json"), Write(EXECUTION_STATE, Text),
                   NoteWrite("job/procurement_provenance.json")]

  function ExecuteJobTrace(d: Disk, env: Env): Trace {
    match ReadState(d)
    case None => Trace([], HandlerError)
    case Some(r) =>
      if r.body.status != Selected then Trace(SpecFetch(d, Linked(r.body), env), Advanced)
      else if !Linked(r.body) || !r.body.selected then Trace([], HandlerError)
      else StartJobTrace(d, env)
  }

  function StartJobTrace(d: Disk, env: Env): Trace {
    match TransitionState(ReadState(d), JobExecutionInProgress, WithOther("jobExecutionStarted"))
    case Err(_) => Trace(BRIDGE, HandlerError)
    case Ok(started) => Trace(BRIDGE + [StateWrite(started)] + SpecFetch(d[EXECUTION_STATE := Text], true, env), Advanced)
  }

  /** Dispatch on the proposed action. The validator actions are left to the monitor; the completion action is
      never proposed (`NextAction.CompletionIsNeverProposed`). */
  function DispatchTrace(id: UInt256, action: Action, d: Disk, dl: Deadlines, env: Env): Trace
    requires action != BuildCompletionTx
  {
    match action
    case Inspect => InspectTrace(d, env)
    case EvaluateFit => EvaluateFitTrace(d, env)
    case DraftApplication => DraftTrace(id, d, env)
    case BuildCommitTx => BuildCommitTrace(d, dl, env)
    case BuildRevealTx => BuildRevealTrace(id, d, dl, env)
    case BuildFinalistTx => BuildFinalistTrace(d, dl, env)
    case BuildTrial => BuildTrialTrace(d, dl, env)
    case ExecuteJob => ExecuteJobTrace(d, env)
    case BuildValidatorScoreCommitTx | BuildValidatorScoreRevealTx => Trace([], Unhandled)
    case _ => Trace([], Noop)
  }

  const CHECKPOINTS := [NoteWrite("next_action.json"), NoteWrite("reconciliation_snapshot.json")]

  function AdvanceTrace(id: UInt256, d: Disk, env: Env): Trace {
    match OnRead(ReadState(d))
    case None => Trace([], Skip)
    case Some(r) =>
      if r.integrityError then Trace([], IntegrityThrow)
      else if env.chain.None? then Trace([], ChainError)
      else if env.dryRun then Trace(CHECKPOINTS, DryRun)
      else
        var advice := ComputeNextAction(r.body, env.chain.value, env.now);
        CompletionIsNeverProposed(r.body, env.chain.value, env.now);
        var handled := DispatchTrace(id, advice.action, ApplyAll(d, CHECKPOINTS), env.chain.value, env);
        Trace(CHECKPOINTS + handled.writes, handled.outcome)
  }
}

/** The orchestrator as it runs: each handler reads and writes the procurement directory step by step.
    Every method is proved to write exactly the list its trace gives, in that order. */
module Orchestrator {
  import opened Basics
  import opened PhaseModel
  import opened Commitments
  import opened ProcState
  import opened NextAction
  import opened ReviewGates
  import opened Handlers

  /** The directory went through exactly these writes since `disk0`/`log0`. */
  ghost predicate Wrote(dir: ProcDir, disk0: Disk, log0: seq<Write>, ws: seq<Write>)
    reads dir
  {
    dir.Valid() && dir.log == log0 + ws && dir.disk == ApplyAll(disk0, ws)
  }

  lemma LogDeterminesDisk(dir: ProcDir, disk0: Disk, log0: seq<Write>, ws: seq<Write>)
    requires dir.Valid() && disk0 == ApplyAll(dir.base, log0) && dir.log == log0 + ws
    ensures Wrote(dir, disk0, log0, ws)
  {
    ApplyAllConcat(dir.base, log0, ws);
  }

  lemma {:induction false} UnwrittenFileStays(d: Disk, ws: seq<Write>, f: File)
    requires forall k :: 0 <= k < |ws| ==> ws[k].file != f
    ensures f in ApplyAll(d, ws) <==> f in d
  {
    if ws != [] {
      UnwrittenFileStays(d, ws[..|ws| - 1], f);
    }
  }

  // ---- artifact builder ----

  method WriteInspectionBundle(dir: ProcDir)
    requires dir.Valid()
    modifies dir
    ensures Wrote(dir, old(dir.disk), old(dir.log), INSPECTION_BUNDLE)
    ensures ReadState(dir.disk) == old(ReadState(dir.disk))
  {
    hide ApplyAll, ReadState;
    dir.Put(ProcurementSnapshot, Text);
    dir.Put(Note("inspection/linked_job_snapshot.json"), Text);
    dir.Put(Note("inspection/deadlines_and_windows.json"), Text);
    dir.Put(Note("inspection/phase_snapshot.json"), Text);
    LogDeterminesDisk(dir, old(dir.disk), old(dir.log), INSPECTION_BUNDLE);
  }

  method WriteInspectionExtras(dir: ProcDir, jobSpec: bool, fitPass: bool)
    requires dir.Valid()
    modifies dir
    ensures Wrote(dir, old(dir.disk), old(dir.log), FitBundle(jobSpec, fitPass))
    ensures ReadState(dir.disk) == old(ReadState(dir.disk))
  {
    hide ApplyAll, ReadState;
    if jobSpec {
      dir.Put(NORMALIZED_SPEC, Text);
    }
    dir.Put(FitEvaluation, FitC(fitPass));
    dir.Put(Note("inspection/next_action.json"), Text);
    dir.Put(Note("inspection/review_manifest.json"), Text);
    LogDeterminesDisk(dir, old(dir.disk), old(dir.log), FitBundle(jobSpec, fitPass));
  }

  method EnsureRetrievalPacket(dir: ProcDir, phase: string, found: bool)
    requires dir.Valid()
    modifies dir
    ensures Wrote(dir, old(dir.disk), old(dir.log), RetrievalBundle(phase, found))
    ensures ReadState(dir.disk) == old(ReadState(dir.disk))
  {
    hide ApplyAll, ReadState;
    dir.Put(Note("retrieval/retrieval_packet.json"), Text);
    dir.Put(Note("retrieval/retrieval_packet_" + phase + ".json"), Text);
    if !found {
      dir.Put(Note("retrieval/retrieval_packet.json"), Text);
      dir.Put(Note("retrieval/retrieval_packet_" + phase + ".json"), Text);
    }
    LogDeterminesDisk(dir, old(dir.disk), old(dir.log), RetrievalBundle(phase, found));
  }

  method GenerateContent(dir: ProcDir, phase: string, text: File, env: Env)
    requires dir.Valid() && text != StateJson
    modifies dir
    ensures Wrote(dir, old(dir.disk), old(dir.log), ContentBundle(phase, text, env))
    ensures ReadState(dir.disk) == old(ReadState(dir.disk))
  {
    hide ApplyAll, ReadState, RetrievalBundle;
    EnsureRetrievalPacket(dir, phase, env.archiveHit);
    if env.llm {
      dir.Put(Note("llm_audit.json"), Text);
    }
    dir.Put(text, Text);
    dir.Put(Note(phase + "/content_generation_log.json"), Text);
    LogDeterminesDisk(dir, old(dir.disk), old(dir.log), ContentBundle(phase, text, env));
  }

  method FetchLinkedJobSpec(dir: ProcDir, linked: bool, env: Env)
    requires dir.Valid()
    modifies dir
    ensures Wrote(dir, old(dir.disk), old(dir.log), SpecFetch(old(dir.disk), linked, env))
    ensures ReadState(dir.disk) == old(ReadState(dir.disk))
  {
    hide ApplyAll, ReadState;
    if linked && env.mcp && env.specFetched {
      var executing := EXECUTION_STATE in dir.disk;
      dir.Put(LINKED_JOB_SPEC, Text);
      dir.Put(Note("job/raw_spec.json"), Text);
      if executing {
        dir.Put(EXECUTION_STATE, Text);
      }
    }
    LogDeterminesDisk(dir, old(dir.disk), old(dir.log), SpecFetch(old(dir.disk), linked, env));
  }

  method WriteApplicationBundle(dir: ProcDir, m: Material)
    requires dir.Valid()
    modifies dir
    ensures Wrote(dir, old(dir.disk), old(dir.log), ApplicationBundle(m))
    ensures ReadState(dir.disk) == old(ReadState(dir.disk))
  {
    hide ApplyAll, ReadState;
    dir.Put(Brief, Text);
    dir.Put(Payload, PayloadC(m.uri));
    dir.Put(Note("application/capability_claims.json"), Text);
    dir.Put(Note("application/evidence_manifest.json"), Text);
    dir.Put(CommitmentMaterial, MaterialC(m));
    dir.Put(Note("application/review_manifest.json"), Text);
    LogDeterminesDisk(dir, old(dir.disk), old(dir.log), ApplicationBundle(m));
  }

  method WriteRevealBundle(dir: ProcDir, m: Material, verified: bool)
    requires dir.Valid()
    modifies dir
    ensures Wrote(dir, old(dir.disk), old(dir.log), RevealBundle(m, verified))
    ensures ReadState(dir.disk) == old(ReadState(dir.disk))
  {
    hide ApplyAll, ReadState;
    dir.Put(RevealPayload, RevealPayloadC(m.uri, m.salt));
    dir.Put(CommitmentVerification, VerificationC(verified));
    dir.Put(Note("reveal/review_manifest.json"), Text);
    LogDeterminesDisk(dir, old(dir.disk), old(dir.log), RevealBundle(m, verified));
  }

  method WriteFinalistBundle(dir: ProcDir)
    requires dir.Valid()
    modifies dir
    ensures Wrote(dir, old(dir.disk), old(dir.log), FINALIST_BUNDLE)
    ensures ReadState(dir.disk) == old(ReadState(dir.disk))
  {
    hide ApplyAll, ReadState;
    dir.Put(AcceptancePacket, Text);
    dir.Put(StakeRequirements, Text);
    dir.Put(TrialPlan, Text);
    dir.Put(StakePreflight, PreflightC(false, false));
    dir.Put(FinalistManifest, Text);
    LogDeterminesDisk(dir, old(dir.disk), old(dir.log), FINALIST_BUNDLE);
  }

  method WriteTrialBundle(dir: ProcDir, uri: Uri, verified: bool)
    requires dir.Valid()
    modifies dir
    ensures Wrote(dir, old(dir.disk), old(dir.log), TrialBundle(uri, verified))
    ensures ReadState(dir.disk) == old(ReadState(dir.disk))
  {
    hide ApplyAll, ReadState;
    dir.Put(TrialManifest, TrialUriC(uri));
    dir.Put(PublicationRecord, TrialUriC(uri));
    dir.Put(FetchbackVerification, FetchbackC(verified));
    dir.Put(Note("trial/retrieval_packet.json"), Text);
    dir.Put(Note("trial/decomposition_plan.json"), Text);
    dir.Put(Note("trial/validator_packet.json"), Text);
    dir.Put(Note("trial/draft.md"), Text);
    dir.Put(Note("trial/final.md"), Text);
    dir.Put(TrialReviewManifest, Text);
    LogDeterminesDisk(dir, old(dir.disk), old(dir.log), TrialBundle(uri, verified));
  }

  // ---- phase handlers ----

  method HandleInspect(dir: ProcDir, env: Env) returns (o: Outcome)
    requires dir.Valid()
    modifies dir
    ensures Wrote(dir, old(dir.disk), old(dir.log), InspectTrace(old(dir.disk), env).writes)
    ensures o == InspectTrace(old(dir.disk), env).outcome
  {
    hide SetState, ApplyAll;
    ghost var t := InspectTrace(dir.disk, env);
    if !env.inspectionOk {
      LogDeterminesDisk(dir, old(dir.disk), old(dir.log), t.writes);
      return HandlerError;
    }
    WriteInspectionBundle(dir);
    var r := dir.SetProcState(WithOther("lastChainSync").(status := Some(Inspected), linkedJobId := Some(Some(env.jobId))));
    LogDeterminesDisk(dir, old(dir.disk), old(dir.log), t.writes);
    return if r.Ok? then Advanced else HandlerError;
  }

  method HandleEvaluateFit(dir: ProcDir, env: Env) returns (o: Outcome)
    requires dir.Valid()
    modifies dir
    ensures Wrote(dir, old(dir.disk), old(dir.log), EvaluateFitTrace(old(dir.disk), env).writes)
    ensures o == EvaluateFitTrace(old(dir.disk), env).outcome
  {
    hide SetState, ApplyAll, SpecFetch, FitBundle;
    ghost var t := EvaluateFitTrace(dir.disk, env);
    if ProcurementSnapshot !in dir.disk {
      LogDeterminesDisk(dir, old(dir.disk), old(dir.log), t.writes);
      return Blocked;
    }
    var state := ReadState(dir.disk);
    var linked := state.Some? && Linked(state.value.body);
    var jobSpec := NORMALIZED_SPEC in dir.disk;
    ghost var fetched: seq<Write> := [];
    assert ApplyAll(dir.disk, []) == dir.disk by { NoWrites(dir.disk); }
    if !jobSpec {
      fetched := SpecFetch(dir.disk, linked, env);
      FetchLinkedJobSpec(dir, linked, env);
      jobSpec := linked && env.mcp && LINKED_JOB_SPEC in dir.disk;
    }
    assert dir.log == old(dir.log) + fetched;
    WriteInspectionExtras(dir, jobSpec, env.fitPass);
    var r := dir.SetProcState(WithOther("fitScore").(fitEvaluated := Some(true)));
    assert r.Ok? ==> dir.log == old(dir.log) + (fetched + FitBundle(jobSpec, env.fitPass) + [StateWrite(r.value)]);
    assert r.Err? ==> dir.log == old(dir.log) + (fetched + FitBundle(jobSpec, env.fitPass));
    LogDeterminesDisk(dir, old(dir.disk), old(dir.log), t.writes);
    return if r.Ok? then Advanced else HandlerError;
  }

  method HandleDraftApplication(dir: ProcDir, env: Env) returns (o: Outcome)
    requires dir.Valid()
    modifies dir
    ensures Wrote(dir, old(dir.disk), old(dir.log), DraftTrace(dir.id, old(dir.disk), env).writes)
    ensures o == DraftTrace(dir.id, old(dir.disk), env).outcome
  {
    hide DraftedTrace, RetrievalBundle, ContentBundle, ApplyAll;
    ghost var t := DraftTrace(dir.id, dir.disk, env);
    if env.agent.None? || !env.subdomain {
      LogDeterminesDisk(dir, old(dir.disk), old(dir.log), t.writes);
      return Blocked;
    }
    if !env.retrievalOk {
      LogDeterminesDisk(dir, old(dir.disk), old(dir.log), t.writes);
      return HandlerError;
    }
    EnsureRetrievalPacket(dir, "application", env.archiveHit);
    if !env.contentOk {
      return HandlerError;
    }
    GenerateContent(dir, "application", Brief, env);
    assert dir.log == old(dir.log) + DraftContent(env);
    LogDeterminesDisk(dir, old(dir.disk), old(dir.log), DraftContent(env));
    if env.pinned.None? {
      return Blocked;
    }
    o := PackageDraft(dir, env, env.agent.value, env.pinned.value, old(dir.disk), old(dir.log));
  }

  /** The rest of drafting, once the application is pinned: material, bundle, commit package, status. */
  method PackageDraft(dir: ProcDir, env: Env, agent: Address, uri: Uri, ghost disk0: Disk, ghost log0: seq<Write>) returns (o: Outcome)
    requires Wrote(dir, disk0, log0, DraftContent(env)) && disk0 == ApplyAll(dir.base, log0)
    requires ReadState(dir.disk) == ReadState(disk0)
    modifies dir
    ensures Wrote(dir, disk0, log0, DraftedTrace(disk0, env, DraftedMaterial(dir.id, agent, uri, env.salt)).writes)
    ensures o == DraftedTrace(disk0, env, DraftedMaterial(dir.id, agent, uri, env.salt)).outcome
  {
    hide CommitReadyTrace, DraftContent, ApplicationBundle, ApplyAll, ComputeCommitment;
    var hash := ComputeCommitment(dir.id, agent, uri, env.salt);
    var m := Material(agent, uri, env.salt, hash, None, None);
    ghost var t := DraftedTrace(disk0, env, m);
    WriteApplicationBundle(dir, m);
    ghost var bundle := DraftContent(env) + ApplicationBundle(m);
    assert dir.log == log0 + bundle;
    if !env.encodingOk {
      LogDeterminesDisk(dir, disk0, log0, t.writes);
      return HandlerError;
    }
    dir.Put(CommitTx, CommitTxC(hash));
    o := EnterCommitReady(dir, m, disk0, log0, bundle + [Write(CommitTx, CommitTxC(m.hash))]);
    LogDeterminesDisk(dir, disk0, log0, t.writes);
  }

  /** The three state writes that follow the commit package of a fresh draft. */
  method EnterCommitReady(dir: ProcDir, m: Material, ghost disk0: Disk, ghost log0: seq<Write>, ghost done: seq<Write>)
    returns (o: Outcome)
    requires dir.Valid() && dir.log == log0 + done && ReadState(dir.disk) == ReadState(disk0)
    modifies dir
    ensures dir.Valid()
    ensures dir.log == log0 + CommitReadyTrace(done, disk0, m).writes && o == CommitReadyTrace(done, disk0, m).outcome
  {
    hide SetState, TransitionState, ApplyAll;
    var drafted := dir.TransitionProcStatus(ApplicationDrafted, NO_PATCH.(commitment := Some((m.uri, m.salt, m.hash))));
    if drafted.Err? {
      return HandlerError;
    }
    var ready := dir.TransitionProcStatus(CommitReady, NO_PATCH);
    if ready.Err? {
      return HandlerError;
    }
    var recorded := dir.SetProcState(WithOther("txHandoffs"));
    return if recorded.Ok? then Advanced else HandlerError;
  }

  method HandleBuildCommitTx(dir: ProcDir, dl: Deadlines, env: Env) returns (o: Outcome)
    requires dir.Valid()
    modifies dir
    ensures Wrote(dir, old(dir.disk), old(dir.log), BuildCommitTrace(old(dir.disk), dl, env).writes)
    ensures o == BuildCommitTrace(old(dir.disk), dl, env).outcome
  {
    hide TransitionState, ApplyAll, CommitConditions;
    ghost var t := BuildCommitTrace(dir.disk, dl, env);
    var state := dir.GetProcState();
    var gate := AssertCommitGate(dir, dl, env.gateNow, env.helper);
    if !gate.Passed? {
      LogDeterminesDisk(dir, old(dir.disk), old(dir.log), t.writes);
      return Blocked;
    }
    if state.None? || state.value.body.commitmentHash.None? || !env.encodingOk {
      LogDeterminesDisk(dir, old(dir.disk), old(dir.log), t.writes);
      return HandlerError;
    }
    dir.Put(CommitTx, CommitTxC(state.value.body.commitmentHash.value));
    var r := dir.TransitionProcStatus(CommitReady, NO_PATCH);
    LogDeterminesDisk(dir, old(dir.disk), old(dir.log), t.writes);
    return if r.Ok? then Advanced else HandlerError;
  }

  method HandleBuildRevealTx(dir: ProcDir, dl: Deadlines, env: Env) returns (o: Outcome)
    requires dir.Valid()
    modifies dir
    ensures Wrote(dir, old(dir.disk), old(dir.log), BuildRevealTrace(dir.id, old(dir.disk), dl, env).writes)
    ensures o == BuildRevealTrace(dir.id, old(dir.disk), dl, env).outcome
  {
    hide TransitionState, RevealConditions, RevealBundle, ComputeCommitment;
    ghost var t := BuildRevealTrace(dir.id, dir.disk, dl, env);
    var material := ReadMaterial(dir.disk);
    if material.None? {
      LogDeterminesDisk(dir, old(dir.disk), old(dir.log), t.writes);
      return Blocked;
    }
    var m := material.value;
    var verified := ComputeCommitment(dir.id, m.agent, m.uri, m.salt) == m.hash;
    WriteRevealBundle(dir, m, verified);
    if !verified {
      return Blocked;
    }
    var gate := AssertRevealGate(dir, dl, env.gateNow, env.helper);
    if !gate.Passed? {
      return Blocked;
    }
    if !env.encodingOk {
      return HandlerError;
    }
    dir.Put(RevealTx, RevealTxC(m.uri, m.salt));
    var r := dir.TransitionProcStatus(RevealReady, NO_PATCH);
    LogDeterminesDisk(dir, old(dir.disk), old(dir.log), t.writes);
    return if r.Ok? then Advanced else HandlerError;
  }

  method HandleBuildFinalistTx(dir: ProcDir, dl: Deadlines, env: Env) returns (o: Outcome)
    requires dir.Valid()
    modifies dir
    ensures Wrote(dir, old(dir.disk), old(dir.log), BuildFinalistTrace(old(dir.disk), dl, env).writes)
    ensures o == BuildFinalistTrace(old(dir.disk), dl, env).outcome
  {
    hide TransitionState, FinalistConditions;
    ghost var t := BuildFinalistTrace(dir.disk, dl, env);
    WriteFinalistBundle(dir);
    var gate := AssertFinalistAcceptGate(dir, dl, env.gateNow, env.helper);
    if !gate.Passed? {
      return Blocked;
    }
    if !env.encodingOk {
      return HandlerError;
    }
    dir.Put(FinalistTx, Text);
    var r := dir.TransitionProcStatus(FinalistAcceptReady, NO_PATCH);
    LogDeterminesDisk(dir, old(dir.disk), old(dir.log), t.writes);
    return if r.Ok? then Advanced else HandlerError;
  }

  method HandleBuildTrial(dir: ProcDir, dl: Deadlines, env: Env) returns (o: Outcome)
    requires dir.Valid()
    modifies dir
    ensures Wrote(dir, old(dir.disk), old(dir.log), BuildTrialTrace(old(dir.disk), dl, env).writes)
    ensures o == BuildTrialTrace(old(dir.disk), dl, env).outcome
  {
    hide TrialWorkTrace;
    ghost var t := BuildTrialTrace(dir.disk, dl, env);
    var state := ReadState(dir.disk);
    if state.None? {
      LogDeterminesDisk(dir, old(dir.disk), old(dir.log), t.writes);
      return HandlerError;
    }
    if state.value.body.status == FinalistAcceptSubmitted {
      var working := dir.TransitionProcStatus(TrialInProgress, NO_PATCH);
      if working.Err? {
        LogDeterminesDisk(dir, old(dir.disk), old(dir.log), t.writes);
        return HandlerError;
      }
      o := WorkOnTrial(dir, dl, env, old(dir.log), [StateWrite(working.value)]);
    } else {
      o := WorkOnTrial(dir, dl, env, old(dir.log), []);
    }
    LogDeterminesDisk(dir, old(dir.disk), old(dir.log), t.writes);
  }

  /** Retrieval, content and publication of the trial deliverable. */
  method WorkOnTrial(dir: ProcDir, dl: Deadlines, env: Env, ghost log0: seq<Write>, ghost done: seq<Write>)
    returns (o: Outcome)
    requires dir.Valid() && dir.log == log0 + done
    modifies dir
    ensures dir.Valid()
    ensures dir.log == log0 + TrialWorkTrace(done, old(dir.disk), dl, env).writes
    ensures o == TrialWorkTrace(done, old(dir.disk), dl, env).outcome
  {
    hide TrialPackageTrace, RetrievalBundle, ContentBundle, ApplyAll;
    if !env.retrievalOk {
      return HandlerError;
    }
    EnsureRetrievalPacket(dir, "trial", env.archiveHit);
    assert dir.log == log0 + (done + RetrievalBundle("trial", env.archiveHit));
    if !env.contentOk {
      return HandlerError;
    }
    GenerateContent(dir, "trial", Note("trial/trial_deliverable.md"), env);
    assert dir.log == log0 + (done + TrialContent(env));
    ApplyAllConcat(old(dir.disk), RetrievalBundle("trial", env.archiveHit), ContentBundle("trial", Note("trial/trial_deliverable.md"), env));
    if env.pinned.None? {
      return Blocked;
    }
    o := PackageTrial(dir, dl, env, env.pinned.value, log0, done + TrialContent(env));
  }

  lemma TrialBundleIsNoArchiveRecord(d: Disk, uri: Uri, verified: bool)
    ensures ARCHIVE_RECORD in ApplyAll(d, TrialBundle(uri, verified)) <==> ARCHIVE_RECORD in d
  {
    hide ApplyAll;
    UnwrittenFileStays(d, TrialBundle(uri, verified), ARCHIVE_RECORD);
  }

  /** Trial bundle, gate, package and status. */
  method PackageTrial(dir: ProcDir, dl: Deadlines, env: Env, uri: Uri, ghost log0: seq<Write>, ghost done: seq<Write>)
    returns (o: Outcome)
    requires dir.Valid() && dir.log == log0 + done
    modifies dir
    ensures dir.Valid()
    ensures dir.log == log0 + TrialPackageTrace(done, old(dir.disk), dl, env, uri).writes
    ensures o == TrialPackageTrace(done, old(dir.disk), dl, env, uri).outcome
  {
    hide TrialReadyTrace, TrialBundle, TrialConditions, ApplyAll, ReadState;
    ghost var bundled := done + TrialBundle(uri, env.fetchback);
    TrialBundleIsNoArchiveRecord(dir.disk, uri, env.fetchback);
    WriteTrialBundle(dir, uri, env.fetchback);
    assert dir.log == log0 + bundled;
    var gate := AssertTrialSubmitGate(dir, dl, env.gateNow, env.helper);
    if !gate.Passed? {
      return Blocked;
    }
    if !env.encodingOk {
      return HandlerError;
    }
    dir.Put(TrialTx, TrialUriC(uri));
    o := EnterTrialReady(dir, env, log0, bundled + [Write(TrialTx, TrialUriC(uri))], old(dir.disk));
  }

  method EnterTrialReady(dir: ProcDir, env: Env, ghost log0: seq<Write>, ghost done: seq<Write>, ghost disk0: Disk)
    returns (o: Outcome)
    requires dir.Valid() && dir.log == log0 + done && ReadState(dir.disk) == ReadState(disk0)
    requires ARCHIVE_RECORD in dir.disk <==> ARCHIVE_RECORD in disk0
    modifies dir
    ensures dir.Valid()
    ensures dir.log == log0 + TrialReadyTrace(done, disk0, env).writes && o == TrialReadyTrace(done, disk0, env).outcome
  {
    hide SetState, TransitionState, ApplyAll, TrialArchive;
    var recorded := dir.SetProcState(WithOther("trialURI"));
    if recorded.Err? || !env.archiveOk {
      return HandlerError;
    }
    assert dir.log == log0 + (done + [StateWrite(recorded.value)]);
    ArchiveTrial(dir);
    assert dir.log == log0 + (done + [StateWrite(recorded.value)] + TrialArchive(ARCHIVE_RECORD in disk0));
    var r := dir.TransitionProcStatus(TrialReady, NO_PATCH);
    return if r.Ok? then Advanced else HandlerError;
  }

  method ArchiveTrial(dir: ProcDir)
    requires dir.Valid()
    modifies dir
    ensures dir.Valid() && dir.log == old(dir.log) + TrialArchive(ARCHIVE_RECORD in old(dir.disk))
    ensures ReadState(dir.disk) == old(ReadState(dir.disk))
  {
    if ARCHIVE_RECORD !in dir.disk {
      dir.Put(Note("retrieval/stepping_stone_trial.json"), Text);
      dir.Put(ARCHIVE_RECORD, Text);
    }
  }

  method HandleExecuteJob(dir: ProcDir, env: Env) returns (o: Outcome)
    requires dir.Valid()
    modifies dir
    ensures Wrote(dir, old(dir.disk), old(dir.log), ExecuteJobTrace(old(dir.disk), env).writes)
    ensures o == ExecuteJobTrace(old(dir.disk), env).outcome
  {
    hide StartJobTrace, SpecFetch, ApplyAll, Linked;
    ghost var t := ExecuteJobTrace(dir.disk, env);
    var state := ReadState(dir.disk);
    if state.None? {
      LogDeterminesDisk(dir, old(dir.disk), old(dir.log), t.writes);
      return HandlerError;
    }
    var linked := Linked(state.value.body);
    if state.value.body.status == Selected {
      if !linked || !state.value.body.selected {
        LogDeterminesDisk(dir, old(dir.disk), old(dir.log), t.writes);
        return HandlerError;
      }
      o := StartJob(dir, env);
    } else {
      FetchLinkedJobSpec(dir, linked, env);
      o := Advanced;
    }
  }

  /** The bridge to the selected job, the status, and the job's spec. */
  method StartJob(dir: ProcDir, env: Env) returns (o: Outcome)
    requires dir.Valid()
    modifies dir
    ensures Wrote(dir, old(dir.disk), old(dir.log), StartJobTrace(old(dir.disk), env).writes)
    ensures o == StartJobTrace(old(dir.disk), env).outcome
  {
    hide TransitionState, ReadState, ApplyAll, SpecFetch;
    ghost var t := StartJobTrace(dir.disk, env);
    dir.Put(Note("selection_to_execution_bridge.json"), Text);
    dir.Put(EXECUTION_STATE, Text);
    dir.Put(Note("job/procurement_provenance.json"), Text);
    var started := dir.TransitionProcStatus(JobExecutionInProgress, WithOther("jobExecutionStarted"));
    if started.Err? {
      LogDeterminesDisk(dir, old(dir.disk), old(dir.log), t.writes);
      return HandlerError;
    }
    assert dir.log == old(dir.log) + (BRIDGE + [StateWrite(started.value)]);
    SpecFetchReadsTheBridge(dir.disk, old(dir.disk), env);
    FetchLinkedJobSpec(dir, true, env);
    LogDeterminesDisk(dir, old(dir.disk), old(dir.log), t.writes);
    return Advanced;
  }

  lemma SpecFetchReadsTheBridge(d: Disk, before: Disk, env: Env)
    requires EXECUTION_STATE in d
    ensures SpecFetch(d, true, env) == SpecFetch(before[EXECUTION_STATE := Text], true, env)
  {
  }

  // ---- one step of one procurement ----

  method WriteCheckpoints(dir: ProcDir)
    requires dir.Valid()
    modifies dir
    ensures Wrote(dir, old(dir.disk), old(dir.log), CHECKPOINTS)
  {
    dir.Put(Note("next_action.json"), Text);
    dir.Put(Note("reconciliation_snapshot.json"), Text);
    LogDeterminesDisk(dir, old(dir.disk), old(dir.log), CHECKPOINTS);
  }

  method Dispatch(dir: ProcDir, action: Action, dl: Deadlines, env: Env) returns (o: Outcome)
    requires dir.Valid() && action != BuildCompletionTx
    modifies dir
    ensures Wrote(dir, old(dir.disk), old(dir.log), DispatchTrace(dir.id, action, old(dir.disk), dl, env).writes)
    ensures o == DispatchTrace(dir.id, action, old(dir.disk), dl, env).outcome
  {
    hide InspectTrace, EvaluateFitTrace, DraftTrace, BuildCommitTrace, BuildRevealTrace,
         BuildFinalistTrace, BuildTrialTrace, ExecuteJobTrace;
    match action
    case Inspect => o := HandleInspect(dir, env);
    case EvaluateFit => o := HandleEvaluateFit(dir, env);
    case DraftApplication => o := HandleDraftApplication(dir, env);
    case BuildCommitTx => o := HandleBuildCommitTx(dir, dl, env);
    case BuildRevealTx => o := HandleBuildRevealTx(dir, dl, env);
    case BuildFinalistTx => o := HandleBuildFinalistTx(dir, dl, env);
    case BuildTrial => o := HandleBuildTrial(dir, dl, env);
    case ExecuteJob => o := HandleExecuteJob(dir, env);
    case BuildValidatorScoreCommitTx | BuildValidatorScoreRevealTx =>
      LogDeterminesDisk(dir, dir.disk, dir.log, []);
      o := Unhandled;
    case Nothing | TerminalReached | CheckShortlist | WaitScoring | CheckWinner =>
      LogDeterminesDisk(dir, dir.disk, dir.log, []);
      o := Noop;
    case BuildCompletionTx => assert false;
  }

  method AdvanceProcurement(dir: ProcDir, env: Env) returns (o: Outcome)
    requires dir.Valid()
    modifies dir
    ensures Wrote(dir, old(dir.disk), old(dir.log), AdvanceTrace(dir.id, old(dir.disk), env).writes)
    ensures o == AdvanceTrace(dir.id, old(dir.disk), env).outcome
  {
    hide DispatchTrace;
    ghost var t := AdvanceTrace(dir.id, dir.disk, env);
    var state := dir.GetProcState();
    if state.None? {
      LogDeterminesDisk(dir, old(dir.disk), old(dir.log), t.writes);
      return Skip;
    }
    if state.value.integrityError {
      LogDeterminesDisk(dir, old(dir.disk), old(dir.log), t.writes);
      return IntegrityThrow;
    }
    if env.chain.None? {
      LogDeterminesDisk(dir, old(dir.disk), old(dir.log), t.writes);
      return ChainError;
    }
    var advice := ComputeNextAction(state.value.body, env.chain.value, env.now);
    CompletionIsNeverProposed(state.value.body, env.chain.value, env.now);
    WriteCheckpoints(dir);
    if env.dryRun {
      return DryRun;
    }
    o := Dispatch(dir, advice.action, env.chain.value, env);
    LogDeterminesDisk(dir, old(dir.disk), old(dir.log), t.writes);
  }
}

/** What one undisturbed call of the orchestrator achieves, status by status: exactly when it moves, and what it leaves. */
module LifecycleProgress {
  import opened Basics
  import opened PhaseModel
  import opened Commitments
  import opened ProcState
  import opened NextAction
  import opened ReviewGates
  import opened Handlers
  import opened Lifecycle
  import opened LifecycleSteps
  import opened LifecycleTheorems

  /** The files after a call that nothing interrupts. */
  function AfterCall(id: UInt256, d: Disk, env: Env): Disk {
    ApplyAll(d, AdvanceTrace(id, d, env).writes)
  }

  predicate Moved(d: Disk, d': Disk, t: Status) {
    IntactState(d) && IntactState(d') && AtStatus(d', t) && HistoryOf(d') == HistoryOf(d) + [Entry(t, false)]
  }

  predicate StateKept(d: Disk, d': Disk) {
    ReadState(d') == ReadState(d)
  }

  /** The call reads the chain and is not a dry run, on an intact state. */
  predicate Undisturbed(d: Disk, env: Env) {
    IntactState(d) && env.chain.Some? && !env.dryRun
  }

  /** The same but for notes, which no gate and no handler reads. */
  ghost predicate SameFiles(d: Disk, d': Disk) {
    forall f: File :: !f.Note? ==> (f in d <==> f in d') && (f in d ==> d[f] == d'[f])
  }

  lemma {:induction false} NotesChangeNoFile(d: Disk, ws: seq<Write>)
    requires forall k :: 0 <= k < |ws| ==> ws[k].file.Note?
    ensures SameFiles(d, ApplyAll(d, ws)) && ReadState(ApplyAll(d, ws)) == ReadState(d)
    ensures ReadMaterial(ApplyAll(d, ws)) == ReadMaterial(d)
  {
    if ws != [] {
      NotesChangeNoFile(d, ws[..|ws| - 1]);
    }
  }

  /** The call is the checkpoints, then the handler of the action that status, flags and phase call for. */
  lemma CallRunsItsHandler(id: UInt256, d: Disk, env: Env, action: Action) returns (d1: Disk)
    requires Undisturbed(d, env)
    requires CallsFor(action, ReadState(d).value.body, DeriveChainPhase(env.chain.value, env.now))
    ensures action != BuildCompletionTx
    ensures SameFiles(d, d1) && ReadState(d1) == ReadState(d) && ReadMaterial(d1) == ReadMaterial(d)
    ensures AfterCall(id, d, env) == ApplyAll(d1, DispatchTrace(id, action, d1, env.chain.value, env).writes)
    ensures AdvanceTrace(id, d, env).outcome == DispatchTrace(id, action, d1, env.chain.value, env).outcome
  {
    hide DispatchTrace, ApplyAll, CallsFor, ComputeNextAction, SameFiles, ReadMaterial;
    var b := ReadState(d).value.body;
    ProposedExactly(b, env.chain.value, env.now, action);
    CompletionIsNeverProposed(b, env.chain.value, env.now);
    d1 := ApplyAll(d, CHECKPOINTS);
    NotesChangeNoFile(d, CHECKPOINTS);
    ApplyAllConcat(d, CHECKPOINTS, DispatchTrace(id, action, d1, env.chain.value, env).writes);
  }

  lemma FileAfter(d: Disk, front: seq<Write>, back: seq<Write>, k: nat)
    requires k < |back| && forall j :: k < j < |back| ==> back[j].file != back[k].file
    ensures back[k].file in ApplyAll(d, front + back) && ApplyAll(d, front + back)[back[k].file] == back[k].content
  {
    hide ApplyAll;
    ApplyAllConcat(d, front, back);
    LastWriteWins(ApplyAll(d, front), back, k);
  }

  lemma StateAfter(d: Disk, front: seq<Write>, r: Record)
    ensures ReadState(ApplyAll(d, front + [StateWrite(r)])) == Some(r)
  {
    StateWriteIsRead(d, front, r);
  }

  // ---- what every call leaves ----

  /** A call that cannot read the chain, or finds the state broken or missing, writes nothing; any other leaves the next
      action and the reconciliation, and a dry run nothing else. */
  lemma CallsLeaveCheckpoints(id: UInt256, d: Disk, env: Env)
    ensures !(IntactState(d) && env.chain.Some?) ==> AdvanceTrace(id, d, env).writes == []
    ensures IntactState(d) && env.chain.Some? ==>
              var d' := AfterCall(id, d, env);
              && Note("next_action.json") in d' && Note("reconciliation_snapshot.json") in d'
              && (env.dryRun ==> SameFiles(d, d') && StateKept(d, d') && AdvanceTrace(id, d, env).outcome == DryRun)
  {
    hide DispatchTrace, ApplyAll, ComputeNextAction;
    if IntactState(d) && env.chain.Some? {
      var ws := AdvanceTrace(id, d, env).writes;
      assert ws[0] == CHECKPOINTS[0] && ws[1] == CHECKPOINTS[1];
      WrittenFileIsThere(d, ws, 0);
      WrittenFileIsThere(d, ws, 1);
      if env.dryRun {
        NotesChangeNoFile(d, CHECKPOINTS);
      }
    }
  }

  /** The files the reconciliation requires of a status; here those of the statuses a call enters. */
  function RequiredOf(s: Status): set<File> {
    match s
    case Inspected => {ProcurementSnapshot, Note("inspection/linked_job_snapshot.json"),
                       Note("inspection/deadlines_and_windows.json"), Note("inspection/phase_snapshot.json")}
    case CommitReady => {Brief, Payload, CommitmentMaterial, Note("application/review_manifest.json"), CommitTx}
    case RevealReady => {RevealPayload, CommitmentVerification, Note("reveal/review_manifest.json"), RevealTx}
    case TrialReady => {TrialManifest, PublicationRecord, FetchbackVerification, TrialReviewManifest, TrialTx}
    case _ => {}
  }

  ghost predicate HandoffComplete(d: Disk, s: Status) {
    forall f :: f in RequiredOf(s) ==> f in d
  }

  lemma AllWritten(d: Disk, ws: seq<Write>, s: Status)
    requires forall f :: f in RequiredOf(s) ==> exists k :: 0 <= k < |ws| && ws[k].file == f
    ensures HandoffComplete(ApplyAll(d, ws), s)
  {
    hide ApplyAll, RequiredOf;
    forall f | f in RequiredOf(s)
      ensures f in ApplyAll(d, ws)
    {
      var k :| 0 <= k < |ws| && ws[k].file == f;
      WrittenFileIsThere(d, ws, k);
    }
  }

  lemma {:induction false} WrittenFileIsThere(d: Disk, ws: seq<Write>, k: nat)
    requires k < |ws|
    ensures ws[k].file in ApplyAll(d, ws)
  {
    if k < |ws| - 1 {
      WrittenFileIsThere(d, ws[..|ws| - 1], k);
    }
  }

  // ---- inspection ----

  /** A discovered procurement becomes inspected exactly when the inspection goes through. */
  lemma InspectionStep(id: UInt256, d: Disk, env: Env)
    requires Undisturbed(d, env) && AtStatus(d, Discovered)
    ensures var d' := AfterCall(id, d, env);
            if env.inspectionOk
            then Moved(d, d', Inspected) && ReadState(d').value.body.linkedJobId == Some(env.jobId) && ProcurementSnapshot in d'
            else StateKept(d, d')
  {
    hide ApplyAll, SameFiles, InspectTrace, Moved;
    var d1 := CallRunsItsHandler(id, d, env, Inspect);
    InspectHandled(d1, env);
    if env.inspectionOk {
      MovedFromTheSame(d, d1, AfterCall(id, d, env), Inspected);
    }
  }

  lemma MovedFromTheSame(d: Disk, d1: Disk, d': Disk, t: Status)
    requires ReadState(d1) == ReadState(d) && Moved(d1, d', t)
    ensures Moved(d, d', t)
  {
  }

  lemma InspectedState(d: Disk, jobId: string) returns (r: Record)
    requires IntactState(d) && AtStatus(d, Discovered)
    ensures SetState(ReadState(d), WithOther("lastChainSync").(status := Some(Inspected), linkedJobId := Some(Some(jobId)))) == Ok(r)
    ensures Verifies(r) && !r.integrityError && r.body.status == Inspected && r.body.linkedJobId == Some(jobId)
    ensures r.body.history == ReadState(d).value.body.history + [Entry(Inspected, false)]
  {
    r := SetState(ReadState(d), WithOther("lastChainSync").(status := Some(Inspected), linkedJobId := Some(Some(jobId)))).value;
  }

  lemma InspectHandled(d: Disk, env: Env)
    requires IntactState(d) && AtStatus(d, Discovered)
    ensures var d' := ApplyAll(d, InspectTrace(d, env).writes);
            if env.inspectionOk
            then Moved(d, d', Inspected) && ReadState(d').value.body.linkedJobId == Some(env.jobId) && ProcurementSnapshot in d'
            else d' == d
  {
    hide ApplyAll, SetState;
    NoWrites(d);
    if env.inspectionOk {
      var r := InspectedState(d, env.jobId);
      StateAfter(d, INSPECTION_BUNDLE, r);
      FileAfter(d, [], INSPECTION_BUNDLE + [StateWrite(r)], 0);
      assert [] + (INSPECTION_BUNDLE + [StateWrite(r)]) == INSPECTION_BUNDLE + [StateWrite(r)];
    }
  }

  // ---- fit ----

  /** An inspected procurement that was not evaluated yet is evaluated exactly when its snapshot is there: the fit file has
      the evaluator's answer, the state says so, and the status stays for the operator. */
  lemma FitStep(id: UInt256, d: Disk, env: Env)
    requires Undisturbed(d, env) && AtStatus(d, Inspected) && !ReadState(d).value.body.fitEvaluated
    ensures var d' := AfterCall(id, d, env);
            if ProcurementSnapshot in d
            then && FitEvaluation in d' && d'[FitEvaluation] == FitC(env.fitPass)
                 && AtStatus(d', Inspected) && HistoryOf(d') == HistoryOf(d)
                 && ReadState(d').value.body.fitEvaluated
            else StateKept(d, d') && AdvanceTrace(id, d, env).outcome == Blocked
  {
    hide ApplyAll, FitTrace, Linked;
    var d1 := CallRunsItsHandler(id, d, env, EvaluateFit);
    if ProcurementSnapshot in d {
      FitFiles(d1, env, Linked(ReadState(d1).value.body));
    } else {
      NoWrites(d1);
    }
  }

  lemma EvaluatedState(d: Disk) returns (r: Record)
    requires IntactState(d)
    ensures SetState(ReadState(d), WithOther("fitScore").(fitEvaluated := Some(true))) == Ok(r)
    ensures r.body.fitEvaluated && r.body.status == ReadState(d).value.body.status && r.body.history == ReadState(d).value.body.history
  {
    r := SetState(ReadState(d), WithOther("fitScore").(fitEvaluated := Some(true))).value;
  }

  lemma FitFiles(d: Disk, env: Env, linked: bool)
    requires IntactState(d)
    ensures var d' := ApplyAll(d, FitTrace(d, env, linked).writes);
            && FitEvaluation in d' && d'[FitEvaluation] == FitC(env.fitPass)
            && ReadState(d').Some? && ReadState(d').value.body.fitEvaluated
            && ReadState(d').value.body.status == ReadState(d).value.body.status && HistoryOf(d') == HistoryOf(d)
  {
    hide ApplyAll, SpecFetch, SetState;
    var fetched := if NORMALIZED_SPEC in d then [] else SpecFetch(d, linked, env);
    var jobSpec := NORMALIZED_SPEC in d || (linked && env.mcp && LINKED_JOB_SPEC in ApplyAll(d, fetched));
    var r := EvaluatedState(d);
    var back := [Write(FitEvaluation, FitC(env.fitPass)), NoteWrite("inspection/next_action.json"),
                 NoteWrite("inspection/review_manifest.json"), StateWrite(r)];
    var front := fetched + if jobSpec then [Write(NORMALIZED_SPEC, Text)] else [];
    assert FitTrace(d, env, linked).writes == front + back;
    FileAfter(d, front, back, 0);
    assert front + back == (front + back[..3]) + [StateWrite(r)];
    StateAfter(d, front + back[..3], r);
  }

  // ---- drafting ----

  /** A fit procurement is drafted and packaged in one call exactly when the commit window is open and agent, subdomain,
      retrieval, content, pinning and encoding are all there; otherwise its state stays as it is. */
  lemma DraftStep(id: UInt256, d: Disk, env: Env)
    requires Undisturbed(d, env) && AtStatus(d, FitApproved)
    ensures var d' := AfterCall(id, d, env);
            if DraftSucceeds(env)
            then IntactState(d') && AtStatus(d', CommitReady) && "txHandoffs" in ReadState(d').value.body.other
                 && HistoryOf(d') == HistoryOf(d) + [Entry(ApplicationDrafted, false), Entry(CommitReady, false)]
            else StateKept(d, d')
  {
    if DraftSucceeds(env) {
      DraftReachesCommitReady(id, d, env);
    } else {
      hide ApplyAll, RetrievalBundle, ContentBundle, ApplicationBundle, CommitReadyTrace, ComputeCommitment;
      var phase := DeriveChainPhase(env.chain.value, env.now);
      if phase == CommitOpen {
        var d1 := CallRunsItsHandler(id, d, env, DraftApplication);
        NoWrites(d1);
        UnfinishedDraftKeepsState(id, d1, env);
      } else {
        var d1 := CallRunsItsHandler(id, d, env, Nothing);
        NoWrites(d1);
      }
    }
  }

  lemma UnfinishedDraftKeepsState(id: UInt256, d: Disk, env: Env)
    requires !(env.agent.Some? && env.subdomain && env.retrievalOk && env.contentOk && env.pinned.Some? && env.encodingOk)
    ensures ReadState(ApplyAll(d, DraftTrace(id, d, env).writes)) == ReadState(d)
  {
    hide ApplyAll, RetrievalBundle, ContentBundle, ApplicationBundle, CommitReadyTrace, ComputeCommitment;
    NoWrites(d);
    RetrievalIsInert("application", env.archiveHit);
    InertWritesChangeNothing(d, RetrievalBundle("application", env.archiveHit));
    DraftContentIsInert(env);
    InertWritesChangeNothing(d, DraftContent(env));
    if env.agent.Some? && env.pinned.Some? {
      var m := DraftedMaterial(id, env.agent.value, env.pinned.value, env.salt);
      DraftPackageFiles(env, m);
      StateSurvivesOtherWrites(d, DraftContent(env) + ApplicationBundle(m));
    }
  }

  /** The files of a draft pass the commit gate exactly in the window, with a URI, after a positive fit evaluation. */
  lemma DraftPassesItsGate(d: Disk, env: Env, m: Material, dl: Deadlines, now: int)
    ensures CommitConditions(ApplyAll(d, DraftPackage(env, m)), dl, now) <==>
            DeriveChainPhase(dl, now) == CommitOpen && m.uri != [] && FitEvaluation in d && d[FitEvaluation] == FitC(true)
  {
    hide ApplyAll, DraftContent, ApplicationBundle;
    var ws := ApplicationBundle(m) + [Write(CommitTx, CommitTxC(m.hash))];
    assert DraftPackage(env, m) == DraftContent(env) + ws;
    DraftPackageContents(d, env, m);
    BriefIsWritten(d, DraftContent(env), m);
    DraftNeverTouchesFit(env, m);
    FileStays(d, DraftPackage(env, m), FitEvaluation);
  }

  lemma BriefIsWritten(d: Disk, front: seq<Write>, m: Material)
    ensures Brief in ApplyAll(d, front + (ApplicationBundle(m) + [Write(CommitTx, CommitTxC(m.hash))]))
  {
    hide ApplyAll;
    FileAfter(d, front, ApplicationBundle(m) + [Write(CommitTx, CommitTxC(m.hash))], 0);
  }

  lemma DraftNeverTouchesFit(env: Env, m: Material)
    ensures forall k :: 0 <= k < |DraftPackage(env, m)| ==> DraftPackage(env, m)[k].file != FitEvaluation
  {
    ContentFiles("application", Brief, env);
    hide RetrievalBundle, ContentBundle;
  }

  lemma ContentFiles(phase: string, text: File, env: Env)
    ensures var ws := RetrievalBundle(phase, env.archiveHit) + ContentBundle(phase, text, env);
            forall k :: 0 <= k < |ws| ==> ws[k].file.Note? || ws[k].file == text
  {
  }

  lemma {:induction false} FileStays(d: Disk, ws: seq<Write>, f: File)
    requires forall k :: 0 <= k < |ws| ==> ws[k].file != f
    ensures (f in ApplyAll(d, ws) <==> f in d) && (f in d ==> ApplyAll(d, ws)[f] == d[f])
  {
    if ws != [] {
      FileStays(d, ws[..|ws| - 1], f);
    }
  }

  // ---- commit ----

  /** A drafted application becomes ready to commit exactly in the window, with the files of the application, a positive
      fit evaluation, a recorded commitment and the gates' helper. */
  lemma CommitStep(id: UInt256, d: Disk, env: Env)
    requires Undisturbed(d, env) && AtStatus(d, ApplicationDrafted)
    ensures var d', hash := AfterCall(id, d, env), ReadState(d).value.body.commitmentHash;
            if && env.helper == Defined && hash.Some? && env.encodingOk
               && DeriveChainPhase(env.chain.value, env.gateNow) == CommitOpen
               && Brief in d && Payload in d && HasUri(d[Payload]) && ReadMaterial(d).Some?
               && FitEvaluation in d && d[FitEvaluation] == FitC(true)
            then Moved(d, d', CommitReady) && CommitTx in d' && d'[CommitTx] == CommitTxC(hash.value)
            else StateKept(d, d')
  {
    hide ApplyAll, BuildCommitTrace, Moved, CommitConditions;
    var d1 := CallRunsItsHandler(id, d, env, BuildCommitTx);
    CommitHandled(d1, env.chain.value, env);
    SameCommitGate(d, d1, env.chain.value, env.gateNow);
    CommitGateDemands(d, env.chain.value, env.gateNow);
    if Moved(d1, AfterCall(id, d, env), CommitReady) {
      MovedFromTheSame(d, d1, AfterCall(id, d, env), CommitReady);
    }
  }

  lemma CommitGateDemands(d: Disk, dl: Deadlines, now: int)
    ensures CommitConditions(d, dl, now) <==>
              && DeriveChainPhase(dl, now) == CommitOpen
              && Brief in d && Payload in d && HasUri(d[Payload]) && ReadMaterial(d).Some?
              && FitEvaluation in d && d[FitEvaluation] == FitC(true)
  {
  }

  /** No gate passes without every file it is about, nor the finalist gate without both stake checks and the shortlisting. */
  lemma GatesNeedEveryFile(d: Disk, dl: Deadlines, now: int, f: File)
    requires f !in d
    ensures f in {Brief, Payload, CommitmentMaterial, FitEvaluation} ==> !CommitConditions(d, dl, now)
    ensures f in {CommitmentMaterial, CommitmentVerification, RevealPayload} ==> !RevealConditions(d, dl, now)
    ensures f in {AcceptancePacket, StakeRequirements, StakePreflight, TrialPlan, FinalistManifest, StateJson} ==>
              !FinalistConditions(d, dl, now)
    ensures f in {TrialManifest, PublicationRecord, FetchbackVerification, TrialReviewManifest} ==> !TrialConditions(d, dl, now)
    ensures FinalistConditions(d, dl, now) ==>
              && DeriveChainPhase(dl, now) == FinalistAccept && d[StakePreflight] == PreflightC(true, true)
              && ReadState(d).Some? && ReadState(d).value.body.shortlisted
  {
  }

  lemma SameCommitGate(d: Disk, d1: Disk, dl: Deadlines, now: int)
    requires SameFiles(d, d1)
    ensures CommitConditions(d, dl, now) <==> CommitConditions(d1, dl, now)
  {
  }

  lemma CommitHandled(d: Disk, dl: Deadlines, env: Env)
    requires IntactState(d) && AtStatus(d, ApplicationDrafted)
    ensures var d', hash := ApplyAll(d, BuildCommitTrace(d, dl, env).writes), ReadState(d).value.body.commitmentHash;
            if env.helper == Defined && CommitConditions(d, dl, env.gateNow) && hash.Some? && env.encodingOk
            then Moved(d, d', CommitReady) && CommitTx in d' && d'[CommitTx] == CommitTxC(hash.value)
            else d' == d
  {
    hide ApplyAll, CommitConditions, TransitionState;
    NoWrites(d);
    var hash := ReadState(d).value.body.commitmentHash;
    var r := LegalMoveSucceeds(d, CommitReady, NO_PATCH);
    if hash.Some? {
      var tx := Write(CommitTx, CommitTxC(hash.value));
      StateAfter(d, [tx], r);
      FileAfter(d, [], [tx, StateWrite(r)], 0);
      assert [] + [tx, StateWrite(r)] == [tx] + [StateWrite(r)];
    }
  }

  // ---- reveal ----

  lemma RevealGateAfterBundle(d: Disk, m: Material, verified: bool, dl: Deadlines, now: int)
    requires ReadMaterial(d) == Some(m)
    ensures RevealConditions(ApplyAll(d, RevealBundle(m, verified)), dl, now) <==>
            DeriveChainPhase(dl, now) == RevealOpen && m.uri != [] && verified
  {
    hide ApplyAll;
    LastWriteWins(d, RevealBundle(m, verified), 0);
    LastWriteWins(d, RevealBundle(m, verified), 1);
    FileStays(d, RevealBundle(m, verified), CommitmentMaterial);
  }

  /** A submitted commit becomes ready to reveal exactly in the reveal window, when the stored URI and salt open the stored
      commitment; the package reveals them. */
  lemma RevealStep(id: UInt256, d: Disk, env: Env)
    requires Undisturbed(d, env) && AtStatus(d, CommitSubmitted)
    ensures var d', dl := AfterCall(id, d, env), env.chain.value;
            if && DeriveChainPhase(dl, env.now) == RevealOpen && DeriveChainPhase(dl, env.gateNow) == RevealOpen
               && ReadMaterial(d).Some? && env.helper == Defined && env.encodingOk
               && var m := ReadMaterial(d).value;
                  m.uri != [] && ComputeCommitment(id, m.agent, m.uri, m.salt) == m.hash
            then && Moved(d, d', RevealReady)
                 && RevealTx in d' && d'[RevealTx] == RevealTxC(ReadMaterial(d).value.uri, ReadMaterial(d).value.salt)
            else StateKept(d, d')
  {
    hide ApplyAll, BuildRevealTrace;
    if DeriveChainPhase(env.chain.value, env.now) == RevealOpen {
      var d1 := CallRunsItsHandler(id, d, env, BuildRevealTx);
      RevealHandled(id, d1, env.chain.value, env);
    } else {
      var d1 := CallRunsItsHandler(id, d, env, Nothing);
      NoWrites(d1);
    }
  }

  lemma RevealHandled(id: UInt256, d: Disk, dl: Deadlines, env: Env)
    requires IntactState(d) && AtStatus(d, CommitSubmitted)
    ensures var d' := ApplyAll(d, BuildRevealTrace(id, d, dl, env).writes);
            if && DeriveChainPhase(dl, env.gateNow) == RevealOpen
               && ReadMaterial(d).Some? && env.helper == Defined && env.encodingOk
               && var m := ReadMaterial(d).value;
                  m.uri != [] && ComputeCommitment(id, m.agent, m.uri, m.salt) == m.hash
            then && Moved(d, d', RevealReady)
                 && RevealTx in d' && d'[RevealTx] == RevealTxC(ReadMaterial(d).value.uri, ReadMaterial(d).value.salt)
            else StateKept(d, d')
  {
    hide ApplyAll, RevealConditions, ComputeCommitment, ReadMaterial, TransitionState;
    NoWrites(d);
    if ReadMaterial(d).Some? {
      var m := ReadMaterial(d).value;
      var verified := ComputeCommitment(id, m.agent, m.uri, m.salt) == m.hash;
      var bundle := RevealBundle(m, verified);
      StateSurvivesOtherWrites(d, bundle);
      RevealGateAfterBundle(d, m, verified, dl, env.gateNow);
      var tx := Write(RevealTx, RevealTxC(m.uri, m.salt));
      if verified && env.helper == Defined && RevealConditions(ApplyAll(d, bundle), dl, env.gateNow) && env.encodingOk {
        var r := LegalMoveSucceeds(d, RevealReady, NO_PATCH);
        StateAfter(d, bundle + [tx], r);
        FileAfter(d, bundle, [tx, StateWrite(r)], 0);
        assert bundle + [tx, StateWrite(r)] == bundle + [tx] + [StateWrite(r)];
      }
    }
  }

  // ---- finalist ----

  /** A shortlisted procurement keeps its state in every call. */
  lemma FinalistStep(id: UInt256, d: Disk, env: Env)
    requires Undisturbed(d, env) && AtStatus(d, Shortlisted)
    ensures StateKept(d, AfterCall(id, d, env))
  {
    hide ApplyAll, FinalistConditions;
    if DeriveChainPhase(env.chain.value, env.now) == FinalistAccept {
      var d1 := CallRunsItsHandler(id, d, env, BuildFinalistTx);
      FinalistGateNeverPasses(d1, env.chain.value, env.gateNow);
      StateSurvivesOtherWrites(d1, FINALIST_BUNDLE);
    } else {
      var d1 := CallRunsItsHandler(id, d, env, Nothing);
      NoWrites(d1);
    }
  }

  // ---- trial ----

  lemma TrialGateAfterBundle(d: Disk, uri: Uri, verified: bool, dl: Deadlines, now: int)
    ensures TrialConditions(ApplyAll(d, TrialBundle(uri, verified)), dl, now) <==>
            DeriveChainPhase(dl, now) == TrialOpen && uri != [] && verified
  {
    hide ApplyAll;
    LastWriteWins(d, TrialBundle(uri, verified), 0);
    LastWriteWins(d, TrialBundle(uri, verified), 1);
    LastWriteWins(d, TrialBundle(uri, verified), 2);
    LastWriteWins(d, TrialBundle(uri, verified), 8);
  }

  /** Everything a trial needs once it is in progress. */
  predicate TrialSucceeds(env: Env, dl: Deadlines) {
    && env.retrievalOk && env.contentOk && env.pinned.Some? && env.pinned.value != []
    && env.helper == Defined && DeriveChainPhase(dl, env.gateNow) == TrialOpen
    && env.fetchback && env.encodingOk && env.archiveOk
  }

  /** A trial call ends in TrialReady, with the pinned URI in its package, exactly when everything it needs is there; the
      trial is otherwise in progress, from the moment its window was open. */
  lemma TrialStep(id: UInt256, d: Disk, env: Env)
    requires Undisturbed(d, env) && (AtStatus(d, TrialInProgress) || AtStatus(d, FinalistAcceptSubmitted))
    ensures var d', dl := AfterCall(id, d, env), env.chain.value;
            if AtStatus(d, FinalistAcceptSubmitted) && DeriveChainPhase(dl, env.now) != TrialOpen then StateKept(d, d')
            else if TrialSucceeds(env, dl)
            then && AtStatus(d', TrialReady) && TrialTx in d' && d'[TrialTx] == TrialUriC(env.pinned.value) && ARCHIVE_RECORD in d'
                 && "trialURI" in ReadState(d').value.body.other
            else AtStatus(d', TrialInProgress)
  {
    hide ApplyAll, BuildTrialTrace;
    if AtStatus(d, TrialInProgress) || DeriveChainPhase(env.chain.value, env.now) == TrialOpen {
      var d1 := CallRunsItsHandler(id, d, env, BuildTrial);
      TrialHandled(d1, env.chain.value, env);
    } else {
      var d1 := CallRunsItsHandler(id, d, env, Nothing);
      NoWrites(d1);
    }
  }

  lemma TrialHandled(d: Disk, dl: Deadlines, env: Env)
    requires IntactState(d) && (AtStatus(d, TrialInProgress) || AtStatus(d, FinalistAcceptSubmitted))
    ensures TrialEnds(ApplyAll(d, BuildTrialTrace(d, dl, env).writes), dl, env)
  {
    hide ApplyAll, TrialWorkTrace, TrialEnds;
    if AtStatus(d, FinalistAcceptSubmitted) {
      var working := LegalMoveSucceeds(d, TrialInProgress, NO_PATCH);
      SingleWrite(d, StateWrite(working));
      assert ArchiveInSync(d, [StateWrite(working)], Apply(d, StateWrite(working)));
      TrialWorkEnds(d, [StateWrite(working)], Apply(d, StateWrite(working)), dl, env);
    } else {
      NoWrites(d);
      TrialWorkEnds(d, [], d, dl, env);
    }
  }

  predicate TrialEnds(d: Disk, dl: Deadlines, env: Env) {
    if TrialSucceeds(env, dl)
    then && AtStatus(d, TrialReady) && TrialTx in d && d[TrialTx] == TrialUriC(env.pinned.value) && ARCHIVE_RECORD in d
         && "trialURI" in ReadState(d).value.body.other
    else AtStatus(d, TrialInProgress)
  }

  /** Writing the same files on top of more leaves more. */
  lemma {:induction false} MoreStaysMore(d: Disk, d1: Disk, ws: seq<Write>, f: File)
    requires f in d ==> f in d1
    ensures f in ApplyAll(d, ws) ==> f in ApplyAll(d1, ws)
  {
    if ws != [] {
      MoreStaysMore(d, d1, ws[..|ws| - 1], f);
    }
  }

  /** The archive record the handler looks for is on the disk it writes to. */
  predicate ArchiveInSync(d0: Disk, done: seq<Write>, d: Disk) {
    ARCHIVE_RECORD in d ==> ARCHIVE_RECORD in ApplyAll(d0, done)
  }

  lemma StaysInSync(d0: Disk, done: seq<Write>, d: Disk, ws: seq<Write>)
    requires ArchiveInSync(d0, done, d)
    ensures ArchiveInSync(d0, done + ws, ApplyAll(d, ws)) && ArchiveInSync(d0, done + ws, d)
  {
    hide ApplyAll;
    ApplyAllConcat(d0, done, ws);
    MoreStaysMore(d, ApplyAll(d0, done), ws, ARCHIVE_RECORD);
    if ARCHIVE_RECORD in ApplyAll(d0, done) {
      FilesStay(ApplyAll(d0, done), ws, ARCHIVE_RECORD);
    }
  }

  lemma {:induction false} FilesStay(d: Disk, ws: seq<Write>, f: File)
    requires f in d
    ensures f in ApplyAll(d, ws)
  {
    if ws != [] {
      FilesStay(d, ws[..|ws| - 1], f);
    }
  }

  lemma InertKeepsStatus(d0: Disk, done: seq<Write>, d: Disk, ws: seq<Write>)
    requires AllInert(ws) && ReadState(ApplyAll(d0, done)) == ReadState(d)
    ensures ReadState(ApplyAll(d0, done + ws)) == ReadState(d)
  {
    hide ApplyAll;
    ApplyAllConcat(d0, done, ws);
    InertWritesChangeNothing(ApplyAll(d0, done), ws);
  }

  lemma TrialWorkEnds(d0: Disk, done: seq<Write>, d: Disk, dl: Deadlines, env: Env)
    requires ReadState(ApplyAll(d0, done)) == ReadState(d) && IntactState(d) && AtStatus(d, TrialInProgress)
    requires ArchiveInSync(d0, done, d)
    ensures TrialEnds(ApplyAll(d0, TrialWorkTrace(done, d, dl, env).writes), dl, env)
  {
    hide ApplyAll, TrialPackageTrace, RetrievalBundle, ContentBundle;
    RetrievalIsInert("trial", env.archiveHit);
    InertKeepsStatus(d0, done, d, RetrievalBundle("trial", env.archiveHit));
    TrialFilesAreInert(env, [], false);
    InertKeepsStatus(d0, done, d, TrialContent(env));
    InertWritesChangeNothing(d, TrialContent(env));
    StaysInSync(d0, done, d, TrialContent(env));
    if env.retrievalOk && env.contentOk && env.pinned.Some? {
      TrialPackageEnds(d0, done + TrialContent(env), ApplyAll(d, TrialContent(env)), dl, env);
    }
  }

  lemma TrialPackageEnds(d0: Disk, done: seq<Write>, d: Disk, dl: Deadlines, env: Env)
    requires ReadState(ApplyAll(d0, done)) == ReadState(d) && IntactState(d) && AtStatus(d, TrialInProgress)
    requires ArchiveInSync(d0, done, d)
    requires env.retrievalOk && env.contentOk && env.pinned.Some?
    ensures TrialEnds(ApplyAll(d0, TrialPackageTrace(done, d, dl, env, env.pinned.value).writes), dl, env)
  {
    hide ApplyAll, TrialReadyTrace, TrialConditions, TrialBundle;
    var uri := env.pinned.value;
    var bundle := TrialBundle(uri, env.fetchback);
    TrialFilesAreInert(env, uri, env.fetchback);
    InertKeepsStatus(d0, done, d, bundle);
    TrialGateAfterBundle(d, uri, env.fetchback, dl, env.gateNow);
    if env.helper == Defined && TrialConditions(ApplyAll(d, bundle), dl, env.gateNow) && env.encodingOk {
      var tx := [Write(TrialTx, TrialUriC(uri))];
      InertKeepsStatus(d0, done + bundle, d, tx);
      StaysInSync(d0, done, d, bundle + tx);
      assert done + bundle + tx == done + (bundle + tx);
      TrialReadyEnds(d0, done + bundle, uri, d, env);
    }
  }

  lemma TrialReadyEnds(d0: Disk, done: seq<Write>, uri: Uri, d: Disk, env: Env)
    requires ReadState(ApplyAll(d0, done + [Write(TrialTx, TrialUriC(uri))])) == ReadState(d)
    requires IntactState(d) && AtStatus(d, TrialInProgress)
    requires ArchiveInSync(d0, done + [Write(TrialTx, TrialUriC(uri))], d)
    ensures var tx := Write(TrialTx, TrialUriC(uri));
            var d' := ApplyAll(d0, TrialReadyTrace(done + [tx], d, env).writes);
            if env.archiveOk
            then && AtStatus(d', TrialReady) && TrialTx in d' && d'[TrialTx] == TrialUriC(uri) && ARCHIVE_RECORD in d'
                 && "trialURI" in ReadState(d').value.body.other
            else AtStatus(d', TrialInProgress)
  {
    hide ApplyAll, SetState, TransitionState, TrialArchive;
    var tx := Write(TrialTx, TrialUriC(uri));
    StoredKeepsStatus(d, WithOther("trialURI"));
    var noted := SetState(ReadState(d), WithOther("trialURI")).value;
    if env.archiveOk {
      var ready := LegalMoveSucceeds(Apply(d, StateWrite(noted)), TrialReady, NO_PATCH);
      var recorded := ARCHIVE_RECORD in d;
      var back := [tx, StateWrite(noted)] + TrialArchive(recorded) + [StateWrite(ready)];
      ArchiveFiles(recorded);
      assert TrialReadyTrace(done + [tx], d, env).writes == done + back;
      FileAfter(d0, done, back, 0);
      assert done + back == (done + back[..|back| - 1]) + [StateWrite(ready)];
      StateAfter(d0, done + back[..|back| - 1], ready);
      RecordIsThere(d0, done + [tx], [StateWrite(noted)], recorded, [StateWrite(ready)]);
      assert done + [tx] + ([StateWrite(noted)] + TrialArchive(recorded) + [StateWrite(ready)]) == done + back;
    } else {
      StateAfter(d0, done + [tx], noted);
    }
  }

  lemma ArchiveFiles(recorded: bool)
    ensures forall k :: 0 <= k < |TrialArchive(recorded)| ==> TrialArchive(recorded)[k].file.Note?
    ensures !recorded ==> |TrialArchive(recorded)| == 2 && TrialArchive(recorded)[1].file == ARCHIVE_RECORD
  {
  }

  lemma RecordIsThere(d: Disk, done: seq<Write>, front: seq<Write>, recorded: bool, back: seq<Write>)
    requires recorded ==> ARCHIVE_RECORD in ApplyAll(d, done)
    ensures ARCHIVE_RECORD in ApplyAll(d, done + (front + TrialArchive(recorded) + back))
  {
    hide ApplyAll, TrialArchive;
    ArchiveFiles(recorded);
    var rest := front + TrialArchive(recorded) + back;
    if recorded {
      ApplyAllConcat(d, done, rest);
      FilesStay(ApplyAll(d, done), rest, ARCHIVE_RECORD);
    } else {
      assert (done + rest)[|done| + |front| + 1] == TrialArchive(recorded)[1];
      WrittenFileIsThere(d, done + rest, |done| + |front| + 1);
    }
  }

  // ---- execution ----

  /** A selected procurement starts its job exactly when a job is linked and the selection is confirmed. */
  lemma ExecutionStep(id: UInt256, d: Disk, env: Env)
    requires Undisturbed(d, env) && AtStatus(d, Selected)
    ensures var d', b := AfterCall(id, d, env), ReadState(d).value.body;
            if b.linkedJobId.Some? && b.linkedJobId.value != "" && b.selected
            then && Moved(d, d', JobExecutionInProgress) && EXECUTION_STATE in d'
                 && (env.mcp && env.specFetched ==> LINKED_JOB_SPEC in d')
            else StateKept(d, d')
  {
    hide ApplyAll, StartJobTrace, SpecFetch, Moved;
    var d1 := CallRunsItsHandler(id, d, env, ExecuteJob);
    NoWrites(d1);
    StartHandled(d1, env);
    MovedFromTheSame(d, d1, ApplyAll(d1, StartJobTrace(d1, env).writes), JobExecutionInProgress);
  }

  lemma StartHandled(d: Disk, env: Env)
    requires IntactState(d) && AtStatus(d, Selected)
    ensures var d' := ApplyAll(d, StartJobTrace(d, env).writes);
            && Moved(d, d', JobExecutionInProgress) && EXECUTION_STATE in d'
            && (env.mcp && env.specFetched ==> LINKED_JOB_SPEC in d')
  {
    hide ApplyAll, SpecFetch, TransitionState;
    var started := LegalMoveSucceeds(d, JobExecutionInProgress, WithOther("jobExecutionStarted"));
    var spec := SpecFetch(d[EXECUTION_STATE := Text], true, env);
    SpecFetchIsInert(d[EXECUTION_STATE := Text], true, env);
    StateAfter(d, BRIDGE, started);
    InertKeepsStatus(d, BRIDGE + [StateWrite(started)], Apply(d, StateWrite(started)), spec);
    ExecutionFile(d, BRIDGE + [StateWrite(started)], spec);
    if env.mcp && env.specFetched {
      FetchedSpecComesFirst(d[EXECUTION_STATE := Text], env);
      WrittenFileIsThere(d, BRIDGE + [StateWrite(started)] + spec, |BRIDGE| + 1);
    }
  }

  lemma FetchedSpecComesFirst(d: Disk, env: Env)
    requires env.mcp && env.specFetched
    ensures |SpecFetch(d, true, env)| > 0 && SpecFetch(d, true, env)[0].file == LINKED_JOB_SPEC
  {
  }

  lemma ExecutionFile(d: Disk, front: seq<Write>, back: seq<Write>)
    requires |front| > 1 && front[1].file == EXECUTION_STATE
    ensures EXECUTION_STATE in ApplyAll(d, front + back)
  {
    WrittenFileIsThere(d, front + back, 1);
  }

  // ---- everything else ----

  /** The statuses a call can leave. */
  predicate Leaves(s: Status) {
    s in {Discovered, Inspected, FitApproved, ApplicationDrafted, CommitSubmitted, Shortlisted,
          FinalistAcceptSubmitted, TrialInProgress, Selected}
  }

  /** In every other status, and in an inspected procurement that was evaluated, a call leaves the state file alone. */
  lemma OtherwiseTheStateStays(id: UInt256, d: Disk, env: Env)
    requires Undisturbed(d, env)
    requires var b := ReadState(d).value.body; !Leaves(b.status) || (b.status == Inspected && b.fitEvaluated)
    ensures StateKept(d, AfterCall(id, d, env))
  {
    hide ApplyAll, SpecFetch, Choose, Linked;
    var b, phase := ReadState(d).value.body, DeriveChainPhase(env.chain.value, env.now);
    ChosenIsCalledFor(b, phase);
    var action := Choose(b, phase).0;
    var d1 := CallRunsItsHandler(id, d, env, action);
    NoWrites(d1);
    SpecFetchIsInert(d1, Linked(b), env);
    InertWritesChangeNothing(d1, SpecFetch(d1, Linked(b), env));
    assert action in {Nothing, TerminalReached, CheckShortlist, WaitScoring, CheckWinner, ExecuteJob,
                      BuildValidatorScoreCommitTx, BuildValidatorScoreRevealTx};
  }

  // ---- the files of the bundles ----

  function FilesOf(ws: seq<Write>): seq<File> {
    seq(|ws|, k requires 0 <= k < |ws| => ws[k].file)
  }

  /** The files of each bundle, in the order in which they are written. */
  lemma BundlesWrite(m: Material, uri: Uri, verified: bool)
    ensures FilesOf(ApplicationBundle(m)) == [Brief, Payload, Note("application/capability_claims.json"),
              Note("application/evidence_manifest.json"), CommitmentMaterial, Note("application/review_manifest.json")]
    ensures FilesOf(FINALIST_BUNDLE) == [AcceptancePacket, StakeRequirements, TrialPlan, StakePreflight, FinalistManifest]
    ensures FilesOf(TrialBundle(uri, verified)) == [TrialManifest, PublicationRecord, FetchbackVerification,
              Note("trial/retrieval_packet.json"), Note("trial/decomposition_plan.json"), Note("trial/validator_packet.json"),
              Note("trial/draft.md"), Note("trial/final.md"), TrialReviewManifest]
  {
  }

  /** The same for what surrounds the bundles: fit evaluation, retrieval, generated content, execution, archive. */
  lemma HandlersWrite(fitPass: bool, env: Env, d: Disk)
    ensures FilesOf(FitBundle(true, fitPass)) == [NORMALIZED_SPEC] + FilesOf(FitBundle(false, fitPass))
    ensures FilesOf(FitBundle(false, fitPass))
            == [FitEvaluation, Note("inspection/next_action.json"), Note("inspection/review_manifest.json")]
    ensures FilesOf(RetrievalBundle("trial", true))
            == [Note("retrieval/retrieval_packet.json"), Note("retrieval/retrieval_packet_" + "trial" + ".json")]
    ensures FilesOf(RetrievalBundle("trial", false)) == FilesOf(RetrievalBundle("trial", true)) + FilesOf(RetrievalBundle("trial", true))
    ensures FilesOf(ContentBundle("trial", Brief, env))
            == FilesOf(RetrievalBundle("trial", env.archiveHit)) + (if env.llm then [Note("llm_audit.json")] else [])
               + [Brief, Note("trial" + "/content_generation_log.json")]
    ensures FilesOf(BRIDGE)
            == [Note("selection_to_execution_bridge.json"), EXECUTION_STATE, Note("job/procurement_provenance.json")]
    ensures FilesOf(TrialArchive(false)) == [Note("retrieval/stepping_stone_trial.json"), ARCHIVE_RECORD]
    ensures TrialArchive(true) == []
    ensures env.mcp && env.specFetched ==>
              FilesOf(SpecFetch(d, true, env))
              == [LINKED_JOB_SPEC, Note("job/raw_spec.json")] + if EXECUTION_STATE in d then [EXECUTION_STATE] else []
    ensures SpecFetch(d, false, env) == [] && (!env.mcp || !env.specFetched ==> SpecFetch(d, true, env) == [])
  {
  }

  // ---- handoffs are complete ----

  /** The part has every file required of the status. */
  ghost predicate Supplies(part: seq<Write>, s: Status) {
    forall f :: f in RequiredOf(s) ==> exists k :: 0 <= k < |part| && part[k].file == f
  }

  lemma PartSupplies(front: seq<Write>, part: seq<Write>, back: seq<Write>, s: Status)
    requires Supplies(part, s)
    ensures Supplies(front + part + back, s)
  {
    hide RequiredOf;
    var ws := front + part + back;
    forall f | f in RequiredOf(s)
      ensures exists k :: 0 <= k < |ws| && ws[k].file == f
    {
      var k :| 0 <= k < |part| && part[k].file == f;
      assert ws[|front| + k] == part[k];
    }
  }

  lemma InspectionSupplies()
    ensures Supplies(INSPECTION_BUNDLE, Inspected)
  {
    var b := INSPECTION_BUNDLE;
    assert b[0].file == ProcurementSnapshot && b[1].file == Note("inspection/linked_job_snapshot.json")
           && b[2].file == Note("inspection/deadlines_and_windows.json") && b[3].file == Note("inspection/phase_snapshot.json");
  }

  lemma ApplicationSupplies(m: Material)
    ensures Supplies(ApplicationBundle(m) + [Write(CommitTx, CommitTxC(m.hash))], CommitReady)
  {
    var b := ApplicationBundle(m) + [Write(CommitTx, CommitTxC(m.hash))];
    assert b[0].file == Brief && b[1].file == Payload && b[4].file == CommitmentMaterial
           && b[5].file == Note("application/review_manifest.json") && b[6].file == CommitTx;
  }

  lemma RevealSupplies(m: Material, verified: bool)
    ensures Supplies(RevealBundle(m, verified) + [Write(RevealTx, RevealTxC(m.uri, m.salt))], RevealReady)
  {
    var b := RevealBundle(m, verified) + [Write(RevealTx, RevealTxC(m.uri, m.salt))];
    assert b[0].file == RevealPayload && b[1].file == CommitmentVerification
           && b[2].file == Note("reveal/review_manifest.json") && b[3].file == RevealTx;
  }

  lemma TrialSupplies(uri: Uri, verified: bool)
    ensures Supplies(TrialBundle(uri, verified) + [Write(TrialTx, TrialUriC(uri))], TrialReady)
  {
    var b := TrialBundle(uri, verified) + [Write(TrialTx, TrialUriC(uri))];
    assert b[0].file == TrialManifest && b[1].file == PublicationRecord && b[2].file == FetchbackVerification
           && b[8].file == TrialReviewManifest && b[9].file == TrialTx;
  }

  lemma InspectSupplies(d: Disk, env: Env)
    requires env.inspectionOk
    ensures Supplies(InspectTrace(d, env).writes, Inspected)
  {
    hide SetState, Supplies;
    InspectionSupplies();
    var ws := InspectTrace(d, env).writes;
    PartSupplies([], INSPECTION_BUNDLE, ws[|INSPECTION_BUNDLE|..], Inspected);
    assert [] + INSPECTION_BUNDLE + ws[|INSPECTION_BUNDLE|..] == ws;
  }

  lemma DraftSupplies(id: UInt256, d: Disk, env: Env)
    requires env.agent.Some? && env.subdomain && env.retrievalOk && env.contentOk && env.pinned.Some? && env.encodingOk
    ensures Supplies(DraftTrace(id, d, env).writes, CommitReady)
  {
    hide DraftContent, ApplicationBundle, SetState, TransitionState, Supplies, ComputeCommitment;
    var m := DraftedMaterial(id, env.agent.value, env.pinned.value, env.salt);
    var part := ApplicationBundle(m) + [Write(CommitTx, CommitTxC(m.hash))];
    ApplicationSupplies(m);
    var ws := DraftTrace(id, d, env).writes;
    var done := DraftContent(env) + ApplicationBundle(m) + [Write(CommitTx, CommitTxC(m.hash))];
    assert done == DraftContent(env) + part;
    assert done <= ws;
    PartSupplies(DraftContent(env), part, ws[|done|..], CommitReady);
    assert DraftContent(env) + part + ws[|done|..] == ws;
  }

  lemma RevealTraceSupplies(id: UInt256, d: Disk, dl: Deadlines, env: Env)
    requires BuildRevealTrace(id, d, dl, env).outcome == Advanced
    ensures Supplies(BuildRevealTrace(id, d, dl, env).writes, RevealReady)
  {
    hide RevealBundle, TransitionState, Supplies, ComputeCommitment, RevealConditions, ApplyAll;
    var m := ReadMaterial(d).value;
    var part := RevealBundle(m, true) + [Write(RevealTx, RevealTxC(m.uri, m.salt))];
    RevealSupplies(m, true);
    var ws := BuildRevealTrace(id, d, dl, env).writes;
    assert part <= ws;
    PartSupplies([], part, ws[|part|..], RevealReady);
    assert [] + part + ws[|part|..] == ws;
  }

  lemma TrialTraceSupplies(d: Disk, dl: Deadlines, env: Env)
    requires BuildTrialTrace(d, dl, env).outcome == Advanced
    ensures Supplies(BuildTrialTrace(d, dl, env).writes, TrialReady)
  {
    hide TrialPackageTrace, TransitionState, Supplies, TrialContent, RetrievalBundle, ApplyAll;
    match ReadState(d)
    case Some(r) =>
      if r.body.status == FinalistAcceptSubmitted {
        var working := TransitionState(Some(r), TrialInProgress, NO_PATCH).value;
        TrialPackageSupplies([StateWrite(working)] + TrialContent(env),
                             ApplyAll(Apply(d, StateWrite(working)), TrialContent(env)), dl, env, env.pinned.value);
      } else {
        TrialPackageSupplies([] + TrialContent(env), ApplyAll(d, TrialContent(env)), dl, env, env.pinned.value);
      }
  }

  lemma TrialPackageSupplies(done: seq<Write>, d: Disk, dl: Deadlines, env: Env, uri: Uri)
    requires TrialPackageTrace(done, d, dl, env, uri).outcome == Advanced
    ensures Supplies(TrialPackageTrace(done, d, dl, env, uri).writes, TrialReady)
  {
    hide TrialBundle, TransitionState, SetState, Supplies, TrialConditions, ApplyAll, TrialArchive;
    var part := TrialBundle(uri, env.fetchback) + [Write(TrialTx, TrialUriC(uri))];
    TrialSupplies(uri, env.fetchback);
    var ws := TrialPackageTrace(done, d, dl, env, uri).writes;
    var before := done + TrialBundle(uri, env.fetchback) + [Write(TrialTx, TrialUriC(uri))];
    assert before == done + part;
    assert before <= ws;
    PartSupplies(done, part, ws[|before|..], TrialReady);
    assert done + part + ws[|before|..] == ws;
  }

  /** Whenever a call inspects, drafts, packages a reveal or packages a trial successfully, every file that the reconciliation
      requires of the status it enters is there. */
  lemma HandoffsAreComplete(id: UInt256, d: Disk, env: Env)
    requires Undisturbed(d, env) && AdvanceTrace(id, d, env).outcome == Advanced
    ensures var d', s := AfterCall(id, d, env), ReadState(d).value.body.status;
            && (s == Discovered ==> HandoffComplete(d', Inspected))
            && (s == FitApproved ==> HandoffComplete(d', CommitReady))
            && (s == CommitSubmitted ==> HandoffComplete(d', RevealReady))
            && (s in {FinalistAcceptSubmitted, TrialInProgress} ==> HandoffComplete(d', TrialReady))
  {
    hide ApplyAll, InspectTrace, DraftTrace, BuildRevealTrace, BuildTrialTrace, HandoffComplete, Supplies, Choose, EvaluateFitTrace,
         BuildCommitTrace, BuildFinalistTrace, ExecuteJobTrace;
    var b, dl := ReadState(d).value.body, env.chain.value;
    var phase := DeriveChainPhase(dl, env.now);
    ChosenIsCalledFor(b, phase);
    var action := Choose(b, phase).0;
    var d1 := CallRunsItsHandler(id, d, env, action);
    if b.status == Discovered {
      InspectWhenAdvanced(d1, env);
      SuppliedIsThere(d1, InspectTrace(d1, env).writes, Inspected);
    } else if b.status == FitApproved {
      DraftWhenAdvanced(id, d1, env);
      SuppliedIsThere(d1, DraftTrace(id, d1, env).writes, CommitReady);
    } else if b.status == CommitSubmitted {
      RevealTraceSupplies(id, d1, dl, env);
      SuppliedIsThere(d1, BuildRevealTrace(id, d1, dl, env).writes, RevealReady);
    } else if b.status in {FinalistAcceptSubmitted, TrialInProgress} {
      TrialTraceSupplies(d1, dl, env);
      SuppliedIsThere(d1, BuildTrialTrace(d1, dl, env).writes, TrialReady);
    }
  }

  lemma SuppliedIsThere(d: Disk, ws: seq<Write>, s: Status)
    requires Supplies(ws, s)
    ensures HandoffComplete(ApplyAll(d, ws), s)
  {
    AllWritten(d, ws, s);
  }

  lemma InspectWhenAdvanced(d: Disk, env: Env)
    requires InspectTrace(d, env).outcome == Advanced
    ensures Supplies(InspectTrace(d, env).writes, Inspected)
  {
    hide Supplies, SetState;
    InspectSupplies(d, env);
  }

  lemma DraftWhenAdvanced(id: UInt256, d: Disk, env: Env)
    requires DraftTrace(id, d, env).outcome == Advanced
    ensures Supplies(DraftTrace(id, d, env).writes, CommitReady)
  {
    hide Supplies, CommitReadyTrace, DraftContent, ApplicationBundle;
    DraftSupplies(id, d, env);
  }
}

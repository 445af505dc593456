/** Every step of a run writes only what the lifecycle invariant allows. */
module LifecycleSteps {
  import opened Basics
  import opened PhaseModel
  import opened Commitments
  import opened ProcState
  import opened NextAction
  import opened ReviewGates
  import opened Handlers
  import opened Operator
  import opened MonitorRefresh
  import opened Lifecycle

  predicate IntactState(d: Disk) {
    ReadState(d).Some? && Verifies(ReadState(d).value) && !ReadState(d).value.integrityError
  }

  /** The status moves a write may make without recording a commitment. */
  predicate MayMove(h: Helper, actor: Actor, s: Status, t: Status) {
    actor == Automation ==> AutoEdge(h, s, t) && t != ApplicationDrafted
  }

  lemma ThenTransitionIsGood(id: UInt256, h: Helper, d0: Disk, done: seq<Write>, d: Disk, s: Status, extra: Patch, actor: Actor)
    requires GoodWrites(id, h, d0, done, actor)
    requires ReadState(ApplyAll(d0, done)) == ReadState(d) && IntactState(d)
    requires extra.commitment.None?
    requires ValidTransition(ReadState(d).value.body.status, s) ==> MayMove(h, actor, ReadState(d).value.body.status, s)
    ensures GoodWrites(id, h, d0, ThenTransition(done, d, s, extra).writes, actor)
  {
    hide AutoEdge, ValidTransition;
    var t := TransitionState(ReadState(d), s, extra);
    if t.Ok? {
      assert GoodStateWrite(id, h, ApplyAll(d0, done), t.value, actor);
      GoodWritesSnoc(id, h, d0, done, StateWrite(t.value), actor);
    }
  }

  lemma ThenSetIsGood(id: UInt256, h: Helper, d0: Disk, done: seq<Write>, d: Disk, p: Patch, actor: Actor)
    requires GoodWrites(id, h, d0, done, actor)
    requires ReadState(ApplyAll(d0, done)) == ReadState(d) && IntactState(d)
    requires p.commitment.None?
    requires p.status.Some? && ValidTransition(ReadState(d).value.body.status, p.status.value) ==>
               MayMove(h, actor, ReadState(d).value.body.status, p.status.value)
    ensures GoodWrites(id, h, d0, ThenSet(done, d, p).writes, actor)
  {
    hide AutoEdge, ValidTransition;
    var t := SetState(ReadState(d), p);
    if t.Ok? {
      assert GoodStateWrite(id, h, ApplyAll(d0, done), t.value, actor);
      GoodWritesSnoc(id, h, d0, done, StateWrite(t.value), actor);
    }
  }

  /** A legal move on an intact state goes through and leaves an intact state. */
  lemma LegalMoveSucceeds(d: Disk, s: Status, extra: Patch) returns (r: Record)
    requires IntactState(d) && ValidTransition(ReadState(d).value.body.status, s)
    ensures TransitionState(ReadState(d), s, extra) == Ok(r)
    ensures r.body.status == s && Verifies(r) && !r.integrityError
    ensures r.body.history == ReadState(d).value.body.history + [Entry(s, false)]
    ensures forall key :: key in ReadState(d).value.body.other || key in extra.other ==> key in r.body.other
  {
    hide ValidTransition;
    r := TransitionState(ReadState(d), s, extra).value;
  }

  lemma NothingIsGood(id: UInt256, h: Helper, d: Disk, actor: Actor)
    ensures GoodWrites(id, h, d, [], actor) && ApplyAll(d, []) == d
  {
  }

  // ---- inspection and fit ----

  lemma InspectIsGood(id: UInt256, h: Helper, d: Disk, env: Env)
    requires IntactState(d) && AtStatus(d, Discovered)
    ensures GoodWrites(id, h, d, InspectTrace(d, env).writes, Automation)
  {
    hide ApplyAll, ValidTransition;
    InertWritesAreGood(id, h, d, INSPECTION_BUNDLE, Automation);
    InertWritesChangeNothing(d, INSPECTION_BUNDLE);
    if env.inspectionOk {
      ThenSetIsGood(id, h, d, INSPECTION_BUNDLE, d,
                    WithOther("lastChainSync").(status := Some(Inspected), linkedJobId := Some(Some(env.jobId))), Automation);
    }
  }

  lemma EvaluateFitIsGood(id: UInt256, h: Helper, d: Disk, env: Env)
    requires IntactState(d)
    ensures GoodWrites(id, h, d, EvaluateFitTrace(d, env).writes, Automation)
  {
    hide FitTrace, Linked, GoodWrites;
    NothingIsGood(id, h, d, Automation);
    FitIsGood(id, h, d, env, ReadState(d).Some? && Linked(ReadState(d).value.body));
  }

  lemma FitIsGood(id: UInt256, h: Helper, d: Disk, env: Env, linked: bool)
    requires IntactState(d)
    ensures GoodWrites(id, h, d, FitTrace(d, env, linked).writes, Automation)
  {
    hide ApplyAll, ValidTransition, SetState, GoodWrites, SpecFetch, FitBundle;
    var fetched := if NORMALIZED_SPEC in d then [] else SpecFetch(d, linked, env);
    var jobSpec := NORMALIZED_SPEC in d || (linked && env.mcp && LINKED_JOB_SPEC in ApplyAll(d, fetched));
    FitFilesAreInert(d, linked, env, jobSpec);
    var ws := fetched + FitBundle(jobSpec, env.fitPass);
    InertWritesAreGood(id, h, d, ws, Automation);
    InertWritesChangeNothing(d, ws);
    ThenSetIsGood(id, h, d, ws, d, WithOther("fitScore").(fitEvaluated := Some(true)), Automation);
  }

  lemma FitFilesAreInert(d: Disk, linked: bool, env: Env, jobSpec: bool)
    ensures AllInert(SpecFetch(d, linked, env)) && AllInert(FitBundle(jobSpec, env.fitPass))
  {
  }

  // ---- drafting ----

  lemma {:induction false} StateSurvivesOtherWrites(d: Disk, ws: seq<Write>)
    requires forall k :: 0 <= k < |ws| ==> ws[k].file != StateJson
    ensures ReadState(ApplyAll(d, ws)) == ReadState(d)
  {
    if ws != [] {
      StateSurvivesOtherWrites(d, ws[..|ws| - 1]);
    }
  }

  lemma {:induction false} LastWriteWins(d: Disk, ws: seq<Write>, k: nat)
    requires k < |ws| && forall j :: k < j < |ws| ==> ws[j].file != ws[k].file
    ensures ws[k].file in ApplyAll(d, ws) && ApplyAll(d, ws)[ws[k].file] == ws[k].content
  {
    if k < |ws| - 1 {
      LastWriteWins(d, ws[..|ws| - 1], k);
    }
  }

  /** Files a draft may write while the status is still FitApproved. */
  ghost predicate DraftFiles(ws: seq<Write>) {
    forall k :: 0 <= k < |ws| ==>
      && ws[k].file != StateJson && ws[k].file != RevealTx
      && (ws[k].file == CommitmentMaterial ==>
            ws[k].content.MaterialC? && ws[k].content.material.subdomain.None? && ws[k].content.material.proof.None?)
  }

  lemma DraftFilesAreGood(id: UInt256, h: Helper, d: Disk, ws: seq<Write>)
    requires AtStatus(d, FitApproved) && DraftFiles(ws)
    ensures GoodWrites(id, h, d, ws, Automation)
    ensures ReadState(ApplyAll(d, ws)) == ReadState(d)
  {
    StateSurvivesOtherWrites(d, ws);
    forall k | 0 <= k < |ws|
      ensures GoodWrite(id, h, ApplyAll(d, ws[..k]), ws[k], Automation)
    {
      StateSurvivesOtherWrites(d, ws[..k]);
    }
  }

  function DraftPackage(env: Env, m: Material): seq<Write> {
    DraftContent(env) + ApplicationBundle(m) + [Write(CommitTx, CommitTxC(m.hash))]
  }

  lemma DraftContentIsInert(env: Env)
    ensures AllInert(DraftContent(env))
  {
  }

  lemma PackageContents(d: Disk, m: Material)
    ensures var d' := ApplyAll(d, ApplicationBundle(m) + [Write(CommitTx, CommitTxC(m.hash))]);
            && Payload in d' && d'[Payload] == PayloadC(m.uri)
            && ReadMaterial(d') == Some(m)
            && CommitTx in d' && d'[CommitTx] == CommitTxC(m.hash)
  {
    hide ApplyAll;
    var ws := ApplicationBundle(m) + [Write(CommitTx, CommitTxC(m.hash))];
    assert ws[1] == Write(Payload, PayloadC(m.uri));
    assert ws[4] == Write(CommitmentMaterial, MaterialC(m));
    assert ws[6] == Write(CommitTx, CommitTxC(m.hash));
    LastWriteWins(d, ws, 1);
    LastWriteWins(d, ws, 4);
    LastWriteWins(d, ws, 6);
  }

  lemma DraftPackageContents(d: Disk, env: Env, m: Material)
    ensures var d' := ApplyAll(d, DraftPackage(env, m));
            && Payload in d' && d'[Payload] == PayloadC(m.uri)
            && ReadMaterial(d') == Some(m)
            && CommitTx in d' && d'[CommitTx] == CommitTxC(m.hash)
  {
    hide ApplyAll, DraftContent, ApplicationBundle;
    var ws := ApplicationBundle(m) + [Write(CommitTx, CommitTxC(m.hash))];
    assert DraftPackage(env, m) == DraftContent(env) + ws;
    ApplyAllConcat(d, DraftContent(env), ws);
    PackageContents(ApplyAll(d, DraftContent(env)), m);
  }

  lemma DraftPackageFiles(env: Env, m: Material)
    requires m.subdomain.None? && m.proof.None?
    ensures DraftFiles(DraftContent(env) + ApplicationBundle(m)) && DraftFiles(DraftPackage(env, m))
  {
    hide DraftContent, ApplicationBundle;
    DraftContentIsInert(env);
    ApplicationFiles(m);
  }

  lemma ApplicationFiles(m: Material)
    requires m.subdomain.None? && m.proof.None?
    ensures DraftFiles(ApplicationBundle(m))
  {
  }

  lemma DraftedStateIsGood(id: UInt256, h: Helper, d: Disk, m: Material, drafted: Record)
    requires IntactState(d) && AtStatus(d, FitApproved)
    requires ReadMaterial(d) == Some(m) && m.hash == ComputeCommitment(id, m.agent, m.uri, m.salt)
    requires Payload in d && d[Payload] == PayloadC(m.uri) && CommitTx in d && d[CommitTx] == CommitTxC(m.hash)
    requires TransitionState(ReadState(d), ApplicationDrafted, NO_PATCH.(commitment := Some((m.uri, m.salt, m.hash)))) == Ok(drafted)
    ensures GoodWrite(id, h, d, StateWrite(drafted), Automation)
    ensures AtStatus(Apply(d, StateWrite(drafted)), ApplicationDrafted) && IntactState(Apply(d, StateWrite(drafted)))
  {
    assert AutoEdge(h, FitApproved, ApplicationDrafted);
  }

  lemma CommitReadyIsGood(id: UInt256, h: Helper, d0: Disk, done: seq<Write>, d: Disk, m: Material)
    requires GoodWrites(id, h, d0, done, Automation) && ReadState(ApplyAll(d0, done)) == ReadState(d)
    requires IntactState(d) && AtStatus(d, FitApproved)
    requires m.hash == ComputeCommitment(id, m.agent, m.uri, m.salt)
    requires var d1 := ApplyAll(d0, done);
             && ReadMaterial(d1) == Some(m) && Payload in d1 && d1[Payload] == PayloadC(m.uri)
             && CommitTx in d1 && d1[CommitTx] == CommitTxC(m.hash)
    ensures GoodWrites(id, h, d0, CommitReadyTrace(done, d, m).writes, Automation)
  {
    hide GoodWrite, GoodWrites, Merge, TransitionState, SetState, ApplyAll;
    var drafted := LegalMoveSucceeds(d, ApplicationDrafted, NO_PATCH.(commitment := Some((m.uri, m.salt, m.hash))));
    DraftedStateIsGood(id, h, ApplyAll(d0, done), m, drafted);
    GoodWritesSnoc(id, h, d0, done, StateWrite(drafted), Automation);
    StateWriteIsRead(d0, done, drafted);
    var w1, d1 := done + [StateWrite(drafted)], Apply(d, StateWrite(drafted));
    ThenTransitionIsGood(id, h, d0, w1, d1, CommitReady, NO_PATCH, Automation);
    var ready := LegalMoveSucceeds(d1, CommitReady, NO_PATCH);
    var w2 := w1 + [StateWrite(ready)];
    StateWriteIsRead(d0, w1, ready);
    ThenSetIsGood(id, h, d0, w2, Apply(d, StateWrite(ready)), WithOther("txHandoffs"), Automation);
    assert w2 == done + [StateWrite(drafted), StateWrite(ready)];
  }

  lemma DraftedIsGood(id: UInt256, h: Helper, d: Disk, env: Env, m: Material)
    requires IntactState(d) && AtStatus(d, FitApproved)
    requires m.hash == ComputeCommitment(id, m.agent, m.uri, m.salt) && m.subdomain.None? && m.proof.None?
    ensures GoodWrites(id, h, d, DraftedTrace(d, env, m).writes, Automation)
  {
    hide CommitReadyTrace, DraftContent, ApplicationBundle, GoodWrites, ApplyAll, ComputeCommitment;
    var bundle := DraftContent(env) + ApplicationBundle(m);
    DraftPackageFiles(env, m);
    DraftFilesAreGood(id, h, d, bundle);
    if env.encodingOk {
      DraftFilesAreGood(id, h, d, DraftPackage(env, m));
      DraftPackageContents(d, env, m);
      CommitReadyIsGood(id, h, d, DraftPackage(env, m), d, m);
    }
  }

  lemma DraftIsGood(id: UInt256, h: Helper, d: Disk, env: Env)
    requires IntactState(d) && AtStatus(d, FitApproved)
    ensures GoodWrites(id, h, d, DraftTrace(id, d, env).writes, Automation)
  {
    hide DraftedTrace, ContentBundle, RetrievalBundle, GoodWrites;
    NothingIsGood(id, h, d, Automation);
    RetrievalIsInert("application", env.archiveHit);
    DraftContentIsInert(env);
    InertWritesAreGood(id, h, d, RetrievalBundle("application", env.archiveHit), Automation);
    InertWritesAreGood(id, h, d, DraftContent(env), Automation);
    if env.agent.Some? && env.pinned.Some? {
      DraftedIsGood(id, h, d, env, DraftedMaterial(id, env.agent.value, env.pinned.value, env.salt));
    }
  }

  lemma RetrievalIsInert(phase: string, found: bool)
    ensures AllInert(RetrievalBundle(phase, found))
  {
  }

  // ---- gated packages ----

  lemma BuildCommitIsGood(id: UInt256, h: Helper, d: Disk, dl: Deadlines, env: Env)
    requires IntactState(d) && AtStatus(d, ApplicationDrafted)
    ensures GoodWrites(id, h, d, BuildCommitTrace(d, dl, env).writes, Automation)
  {
    hide CommitConditions, TransitionState;
    NothingIsGood(id, h, d, Automation);
    var r := ReadState(d).value;
    if r.body.commitmentHash.Some? {
      var tx := Write(CommitTx, CommitTxC(r.body.commitmentHash.value));
      GoodWritesSnoc(id, h, d, [], tx, Automation);
      assert [] + [tx] == [tx];
      assert ReadState(Apply(d, tx)) == ReadState(d);
      ThenTransitionIsGood(id, h, d, [tx], d, CommitReady, NO_PATCH, Automation);
    }
  }

  lemma BuildRevealIsGood(id: UInt256, h: Helper, d: Disk, dl: Deadlines, env: Env)
    requires IntactState(d) && AtStatus(d, CommitSubmitted) && env.helper == h
    ensures GoodWrites(id, h, d, BuildRevealTrace(id, d, dl, env).writes, Automation)
  {
    hide RevealConditions, TransitionState, ApplyAll, ComputeCommitment;
    NothingIsGood(id, h, d, Automation);
    if ReadMaterial(d).Some? {
      var m := ReadMaterial(d).value;
      var bundle := RevealBundle(m, ComputeCommitment(id, m.agent, m.uri, m.salt) == m.hash);
      InertWritesAreGood(id, h, d, bundle, Automation);
      InertWritesChangeNothing(d, bundle);
      var tx := Write(RevealTx, RevealTxC(m.uri, m.salt));
      GoodWritesSnoc(id, h, d, bundle, tx, Automation);
      assert ReadState(ApplyAll(d, bundle + [tx])) == ReadState(d);
      if h == Defined {
        ThenTransitionIsGood(id, h, d, bundle + [tx], d, RevealReady, NO_PATCH, Automation);
      }
    }
  }

  /** The bundle has just reset the stake preflight, so the finalist gate cannot pass. */
  lemma FinalistGateNeverPasses(d: Disk, dl: Deadlines, now: int)
    ensures !FinalistConditions(ApplyAll(d, FINALIST_BUNDLE), dl, now)
  {
    LastWriteWins(d, FINALIST_BUNDLE, 3);
  }

  lemma BuildFinalistIsGood(id: UInt256, h: Helper, d: Disk, dl: Deadlines, env: Env)
    ensures GoodWrites(id, h, d, BuildFinalistTrace(d, dl, env).writes, Automation)
  {
    hide FinalistConditions, ApplyAll;
    FinalistGateNeverPasses(d, dl, env.gateNow);
    InertWritesAreGood(id, h, d, FINALIST_BUNDLE, Automation);
  }

  /** Appending files the invariant does not read. */
  lemma InertSuffixIsGood(id: UInt256, h: Helper, d0: Disk, done: seq<Write>, ws: seq<Write>)
    requires GoodWrites(id, h, d0, done, Automation) && AllInert(ws)
    ensures GoodWrites(id, h, d0, done + ws, Automation)
    ensures ReadState(ApplyAll(d0, done + ws)) == ReadState(ApplyAll(d0, done))
  {
    InertWritesAreGood(id, h, ApplyAll(d0, done), ws, Automation);
    GoodWritesConcat(id, h, d0, done, ws, Automation);
    ApplyAllConcat(d0, done, ws);
    InertWritesChangeNothing(ApplyAll(d0, done), ws);
  }

  lemma StateWriteIsRead(d: Disk, done: seq<Write>, r: Record)
    ensures ReadState(ApplyAll(d, done + [StateWrite(r)])) == Some(r)
  {
    ApplyAllConcat(d, done, [StateWrite(r)]);
    assert [StateWrite(r)][..0] == [];
  }

  lemma NoteInState(d: Disk, key: string)
    requires IntactState(d)
    ensures var t := SetState(ReadState(d), WithOther(key));
            && t.Ok? && ReadState(Apply(d, StateWrite(t.value))) == Some(t.value)
            && t.value.body.status == ReadState(d).value.body.status
            && IntactState(Apply(d, StateWrite(t.value)))
  {
  }

  lemma TrialReadyIsGood(id: UInt256, h: Helper, d0: Disk, done: seq<Write>, d: Disk, env: Env)
    requires GoodWrites(id, h, d0, done, Automation) && ReadState(ApplyAll(d0, done)) == ReadState(d)
    requires IntactState(d) && AtStatus(d, TrialInProgress) && h == Defined
    ensures GoodWrites(id, h, d0, TrialReadyTrace(done, d, env).writes, Automation)
  {
    hide GoodWrites, SetState, TransitionState, ApplyAll, ValidTransition;
    NoteInState(d, "trialURI");
    var r := SetState(ReadState(d), WithOther("trialURI")).value;
    ThenSetIsGood(id, h, d0, done, d, WithOther("trialURI"), Automation);
    StateWriteIsRead(d0, done, r);
    var notes := TrialArchive(ARCHIVE_RECORD in d);
    InertSuffixIsGood(id, h, d0, done + [StateWrite(r)], notes);
    ThenTransitionIsGood(id, h, d0, done + [StateWrite(r)] + notes, Apply(d, StateWrite(r)), TrialReady, NO_PATCH, Automation);
  }

  lemma TrialFilesAreInert(env: Env, uri: Uri, verified: bool)
    ensures AllInert(TrialContent(env)) && AllInert(TrialBundle(uri, verified))
  {
  }

  lemma TrialWorkIsGood(id: UInt256, h: Helper, d0: Disk, done: seq<Write>, d: Disk, dl: Deadlines, env: Env)
    requires GoodWrites(id, h, d0, done, Automation) && ReadState(ApplyAll(d0, done)) == ReadState(d)
    requires IntactState(d) && AtStatus(d, TrialInProgress) && env.helper == h
    ensures GoodWrites(id, h, d0, TrialWorkTrace(done, d, dl, env).writes, Automation)
  {
    hide GoodWrites, TrialPackageTrace, ApplyAll, RetrievalBundle, ContentBundle;
    RetrievalIsInert("trial", env.archiveHit);
    InertSuffixIsGood(id, h, d0, done, RetrievalBundle("trial", env.archiveHit));
    TrialFilesAreInert(env, [], false);
    var content := TrialContent(env);
    InertSuffixIsGood(id, h, d0, done, content);
    InertWritesChangeNothing(d, content);
    if env.pinned.Some? {
      TrialPackageIsGood(id, h, d0, done + content, ApplyAll(d, content), dl, env, env.pinned.value);
    }
  }

  lemma TrialPackageIsGood(id: UInt256, h: Helper, d0: Disk, done: seq<Write>, d: Disk, dl: Deadlines, env: Env, uri: Uri)
    requires GoodWrites(id, h, d0, done, Automation) && ReadState(ApplyAll(d0, done)) == ReadState(d)
    requires IntactState(d) && AtStatus(d, TrialInProgress) && env.helper == h
    ensures GoodWrites(id, h, d0, TrialPackageTrace(done, d, dl, env, uri).writes, Automation)
  {
    hide GoodWrites, TrialReadyTrace, TrialConditions, ApplyAll, TrialContent, TrialBundle;
    TrialFilesAreInert(env, uri, env.fetchback);
    var bundle := TrialBundle(uri, env.fetchback);
    InertSuffixIsGood(id, h, d0, done, bundle);
    var tx := [Write(TrialTx, TrialUriC(uri))];
    InertSuffixIsGood(id, h, d0, done + bundle, tx);
    if h == Defined {
      TrialReadyIsGood(id, h, d0, done + bundle + tx, d, env);
    }
  }

  lemma BuildTrialIsGood(id: UInt256, h: Helper, d: Disk, dl: Deadlines, env: Env)
    requires IntactState(d) && (AtStatus(d, FinalistAcceptSubmitted) || AtStatus(d, TrialInProgress)) && env.helper == h
    ensures GoodWrites(id, h, d, BuildTrialTrace(d, dl, env).writes, Automation)
  {
    hide TrialWorkTrace;
    NothingIsGood(id, h, d, Automation);
    if AtStatus(d, FinalistAcceptSubmitted) {
      ThenTransitionIsGood(id, h, d, [], d, TrialInProgress, NO_PATCH, Automation);
      var working := TransitionState(ReadState(d), TrialInProgress, NO_PATCH).value;
      assert [] + [StateWrite(working)] == [StateWrite(working)];
      TrialWorkIsGood(id, h, d, [StateWrite(working)], Apply(d, StateWrite(working)), dl, env);
    } else {
      TrialWorkIsGood(id, h, d, [], d, dl, env);
    }
  }

  lemma SpecFetchIsInert(d: Disk, linked: bool, env: Env)
    ensures AllInert(SpecFetch(d, linked, env))
  {
  }

  lemma ExecuteJobIsGood(id: UInt256, h: Helper, d: Disk, env: Env)
    requires IntactState(d)
    ensures GoodWrites(id, h, d, ExecuteJobTrace(d, env).writes, Automation)
  {
    hide StartJobTrace, SpecFetch, GoodWrites, Linked;
    NothingIsGood(id, h, d, Automation);
    var linked := Linked(ReadState(d).value.body);
    SpecFetchIsInert(d, linked, env);
    InertWritesAreGood(id, h, d, SpecFetch(d, linked, env), Automation);
    if AtStatus(d, Selected) {
      StartJobIsGood(id, h, d, env);
    }
  }

  lemma StartJobIsGood(id: UInt256, h: Helper, d: Disk, env: Env)
    requires IntactState(d) && AtStatus(d, Selected)
    ensures GoodWrites(id, h, d, StartJobTrace(d, env).writes, Automation)
  {
    hide SpecFetch, GoodWrites, ApplyAll, Merge;
    InertWritesAreGood(id, h, d, BRIDGE, Automation);
    InertWritesChangeNothing(d, BRIDGE);
    ThenTransitionIsGood(id, h, d, BRIDGE, d, JobExecutionInProgress, WithOther("jobExecutionStarted"), Automation);
    var started := LegalMoveSucceeds(d, JobExecutionInProgress, WithOther("jobExecutionStarted"));
    var spec := SpecFetch(d[EXECUTION_STATE := Text], true, env);
    SpecFetchIsInert(d[EXECUTION_STATE := Text], true, env);
    InertSuffixIsGood(id, h, d, BRIDGE + [StateWrite(started)], spec);
  }

  // ---- one call of the orchestrator ----

  lemma DispatchIsGood(id: UInt256, h: Helper, d: Disk, dl: Deadlines, env: Env)
    requires IntactState(d) && env.helper == h
    ensures ComputeNextAction(ReadState(d).value.body, dl, env.now).action != BuildCompletionTx
    ensures GoodWrites(id, h, d,
              DispatchTrace(id, ComputeNextAction(ReadState(d).value.body, dl, env.now).action, d, dl, env).writes, Automation)
  {
    hide InspectTrace, EvaluateFitTrace, DraftTrace, BuildCommitTrace, BuildRevealTrace, BuildFinalistTrace, BuildTrialTrace,
         ExecuteJobTrace, GoodWrites, ComputeNextAction;
    var b := ReadState(d).value.body;
    ProposedExactly(b, dl, env.now, ComputeNextAction(b, dl, env.now).action);
    match ComputeNextAction(b, dl, env.now).action
    case Inspect => InspectIsGood(id, h, d, env);
    case EvaluateFit => EvaluateFitIsGood(id, h, d, env);
    case DraftApplication => DraftIsGood(id, h, d, env);
    case BuildCommitTx => BuildCommitIsGood(id, h, d, dl, env);
    case BuildRevealTx => BuildRevealIsGood(id, h, d, dl, env);
    case BuildFinalistTx => BuildFinalistIsGood(id, h, d, dl, env);
    case BuildTrial => BuildTrialIsGood(id, h, d, dl, env);
    case ExecuteJob => ExecuteJobIsGood(id, h, d, env);
    case _ => NothingIsGood(id, h, d, Automation);
  }

  lemma AdvanceIsGood(id: UInt256, h: Helper, d: Disk, env: Env)
    requires ReadState(d).Some? ==> IntactState(d)
    requires env.helper == h
    ensures GoodWrites(id, h, d, AdvanceTrace(id, d, env).writes, Automation)
  {
    hide DispatchTrace, GoodWrite, ComputeNextAction;
    NothingIsGood(id, h, d, Automation);
    InertWritesAreGood(id, h, d, CHECKPOINTS, Automation);
    InertWritesChangeNothing(d, CHECKPOINTS);
    if ReadState(d).Some? && env.chain.Some? {
      var d1 := ApplyAll(d, CHECKPOINTS);
      DispatchIsGood(id, h, d1, env.chain.value, env);
      GoodWritesConcat(id, h, d, CHECKPOINTS,
        DispatchTrace(id, ComputeNextAction(ReadState(d1).value.body, env.chain.value, env.now).action, d1, env.chain.value, env).writes,
        Automation);
    }
  }

  // ---- monitor ----

  lemma DiscoverIsGood(id: UInt256, h: Helper, d: Disk, jobId: string, ok: bool)
    requires ReadState(d).Some? ==> IntactState(d)
    ensures GoodWrites(id, h, d, DiscoverTrace(d, jobId, ok).writes, Automation)
  {
    NothingIsGood(id, h, d, Automation);
    if ReadState(d).None? {
      var created := Attach(EmptyBody(Some(jobId)), false);
      GoodWritesSnoc(id, h, d, [], StateWrite(created), Automation);
      assert [] + [StateWrite(created)] == [StateWrite(created)];
      var d1 := Apply(d, StateWrite(created));
      InertSuffixIsGood(id, h, d, [StateWrite(created)], INSPECTION_BUNDLE);
      ThenSetIsGood(id, h, d, [StateWrite(created)] + INSPECTION_BUNDLE, d1,
                    WithOther("lastChainSync").(linkedJobId := Some(Some(jobId))), Automation);
    }
  }

  lemma PatchStepIsGood(id: UInt256, h: Helper, d: Disk, p: Patch, actor: Actor)
    requires IntactState(d) && p.commitment.None?
    requires p.status.Some? && ValidTransition(ReadState(d).value.body.status, p.status.value) ==>
               MayMove(h, actor, ReadState(d).value.body.status, p.status.value)
    ensures GoodWrites(id, h, d, ThenSet([], d, p).writes, actor)
  {
    NothingIsGood(id, h, d, actor);
    ThenSetIsGood(id, h, d, [], d, p, actor);
  }

  // ---- validator scoring ----

  /** The statuses in which a scoring run is proposed. */
  predicate Scoring(d: Disk) {
    IntactState(d) && (AtStatus(d, WaitingScorePhase) || AtStatus(d, ValidatorScoreCommitSubmitted))
  }

  lemma StoredKeepsStatus(d: Disk, p: Patch)
    requires ReadState(d).Some? && p.status.None?
    ensures var t := SetState(ReadState(d), p);
            && t.Ok? && Verifies(t.value)
            && t.value.body.status == ReadState(d).value.body.status && t.value.body.history == ReadState(d).value.body.history
            && t.value.integrityError == OnRead(ReadState(d)).value.integrityError
            && forall key :: key in ReadState(d).value.body.other || key in p.other ==> key in t.value.body.other
  {
  }

  lemma StoredIsGood(id: UInt256, h: Helper, d: Disk, p: Patch)
    requires IntactState(d) && p.commitment.None? && p.status.None?
    ensures GoodWrites(id, h, d, Stored(SetState(ReadState(d), p)), Automation)
    ensures var d' := ApplyAll(d, Stored(SetState(ReadState(d), p)));
            IntactState(d') && ReadState(d').value.body.status == ReadState(d).value.body.status
  {
    hide GoodWrites, SetState, ApplyAll, Verifies;
    PatchStepIsGood(id, h, d, p, Automation);
    StoredKeepsStatus(d, p);
    var w := StateWrite(SetState(ReadState(d), p).value);
    assert [] + [w] == [w];
    SingleWrite(d, w);
  }

  lemma SingleWrite(d: Disk, w: Write)
    ensures ApplyAll(d, [w]) == Apply(d, w)
  {
    assert [w][..0] == [];
  }

  lemma BlockedIsGood(id: UInt256, h: Helper, d: Disk)
    requires IntactState(d)
    ensures GoodWrites(id, h, d, BlockedWrites(d), Automation) && IntactState(ApplyAll(d, BlockedWrites(d)))
  {
    hide GoodWrites, SetState, ApplyAll;
    StoredIsGood(id, h, d, WithOther("validatorScoringBlockedReason"));
  }

  lemma MissedIsGood(id: UInt256, h: Helper, d: Disk)
    requires Scoring(d)
    ensures GoodWrites(id, h, d, MissedWrites(d), Automation) && IntactState(ApplyAll(d, MissedWrites(d)))
  {
    hide GoodWrites, GoodWrite, Merge, ApplyAll, BlockedWrites;
    NothingIsGood(id, h, d, Automation);
    ThenTransitionIsGood(id, h, d, [], d, MissedWindow, WithOther("missedWindowAt"), Automation);
    var r := LegalMoveSucceeds(d, MissedWindow, WithOther("missedWindowAt"));
    var w := StateWrite(r);
    assert [] + [w] == [w];
    SingleWrite(d, w);
    BlockedIsGood(id, h, Apply(d, w));
    GoodWritesConcat(id, h, d, [w], BlockedWrites(Apply(d, w)), Automation);
    ApplyAllConcat(d, [w], BlockedWrites(Apply(d, w)));
  }

  lemma PackageIsInert(action: Action, n: nat)
    ensures AllInert(ScoringPackage(action)) && AllInert(Upto(ScoringPackage(action), n))
  {
  }

  /** While the score phase is awaited no status is READY, so a finished package is never called complete. */
  lemma PackagedIsGood(id: UInt256, h: Helper, d: Disk, action: Action, complete: bool)
    requires Scoring(d)
    ensures PackagedWrites(d, action, complete) == BlockedWrites(d)
    ensures GoodWrites(id, h, d, PackagedWrites(d, action, complete), Automation)
    ensures IntactState(ApplyAll(d, PackagedWrites(d, action, complete)))
  {
    hide GoodWrites, BlockedWrites, ApplyAll;
    BlockedIsGood(id, h, d);
  }

  lemma FinishedPackageIsGood(id: UInt256, h: Helper, d: Disk, action: Action, complete: bool)
    requires Scoring(d)
    ensures var package := ScoringPackage(action) + [NoteWrite("reconciliation_snapshot.json")];
            var ws := package + PackagedWrites(ApplyAll(d, package), action, complete);
            GoodWrites(id, h, d, ws, Automation) && IntactState(ApplyAll(d, ws))
  {
    hide GoodWrites, BlockedWrites, PackagedWrites, ScoringPackage, ApplyAll;
    PackageIsInert(action, 0);
    var package := ScoringPackage(action) + [NoteWrite("reconciliation_snapshot.json")];
    InertWritesAreGood(id, h, d, package, Automation);
    InertWritesChangeNothing(d, package);
    PackagedIsGood(id, h, ApplyAll(d, package), action, complete);
    GoodWritesConcat(id, h, d, package, PackagedWrites(ApplyAll(d, package), action, complete), Automation);
    ApplyAllConcat(d, package, PackagedWrites(ApplyAll(d, package), action, complete));
  }

  lemma AssignedIsGood(id: UInt256, h: Helper, d: Disk, action: Action, phase: ChainPhase, run: ScoringRun)
    requires Scoring(d)
    ensures GoodWrites(id, h, d, AssignedWrites(d, action, phase, run), Automation)
    ensures IntactState(ApplyAll(d, AssignedWrites(d, action, phase, run)))
  {
    hide GoodWrites, BlockedWrites, MissedWrites, PackagedWrites, ScoringPackage, ApplyAll;
    NothingIsGood(id, h, d, Automation);
    MissedIsGood(id, h, d);
    BlockedIsGood(id, h, d);
    if run.PackagingFails? {
      PackageIsInert(action, run.written);
      InertWritesAreGood(id, h, d, Upto(ScoringPackage(action), run.written), Automation);
      InertWritesChangeNothing(d, Upto(ScoringPackage(action), run.written));
    } else if run.Packaged? {
      FinishedPackageIsGood(id, h, d, action, run.complete);
    }
  }

  lemma ScoringIsGood(id: UInt256, h: Helper, d: Disk, action: Action, phase: ChainPhase, run: ScoringRun)
    requires Scoring(d)
    ensures GoodWrites(id, h, d, ScoringWrites(d, action, phase, run), Automation)
    ensures IntactState(ApplyAll(d, ScoringWrites(d, action, phase, run)))
  {
    hide GoodWrites, GoodWrite, AssignedWrites, SetState, ApplyAll;
    NothingIsGood(id, h, d, Automation);
    if !run.AssignmentFails? {
      var note, role := [ASSIGNMENT], Role(!run.NotAssigned?);
      InertWritesAreGood(id, h, d, note, Automation);
      InertWritesChangeNothing(d, note);
      StoredIsGood(id, h, ApplyAll(d, note), role);
      var stored := Stored(SetState(ReadState(d), role));
      GoodWritesConcat(id, h, d, note, stored, Automation);
      ApplyAllConcat(d, note, stored);
      var d1 := ApplyAll(d, note + stored);
      AssignedIsGood(id, h, d1, action, phase, run);
      GoodWritesConcat(id, h, d, note + stored, AssignedWrites(d1, action, phase, run), Automation);
      ApplyAllConcat(d, note + stored, AssignedWrites(d1, action, phase, run));
    }
  }

  lemma SnapshotIsGood(id: UInt256, h: Helper, d0: Disk, done: seq<Write>, d: Disk, action: Action, e: RefreshEnv)
    requires GoodWrites(id, h, d0, done, Automation) && ApplyAll(d0, done) == d
    requires IntactState(d) && (Scores(action) ==> Scoring(d))
    ensures GoodWrites(id, h, d0, SnapshotTrace(done, d, action, e).writes, Automation)
  {
    hide ScoringWrites, GoodWrite, GoodWrites, ApplyAll, SetState;
    InertSuffixIsGood(id, h, d0, done, SNAPSHOTS);
    InertWritesChangeNothing(d, SNAPSHOTS);
    ApplyAllConcat(d0, done, SNAPSHOTS);
    var taken := ApplyAll(d, SNAPSHOTS);
    var scored := if Scores(action) && e.agentKnown then ScoringWrites(taken, action, ScoringPhase(e), e.validator) else [];
    if Scores(action) && e.agentKnown {
      ScoringIsGood(id, h, taken, action, ScoringPhase(e), e.validator);
    } else {
      NothingIsGood(id, h, taken, Automation);
    }
    GoodWritesConcat(id, h, d0, done + SNAPSHOTS, scored, Automation);
    ApplyAllConcat(d0, done + SNAPSHOTS, scored);
    ThenSetIsGood(id, h, d0, done + SNAPSHOTS + scored, ApplyAll(taken, scored), WithOther("lastChainSync"), Automation);
  }

  lemma MissIsAnAutoEdge(h: Helper, s: Status, p: ChainPhase)
    requires DidMissRequiredWindow(s, p)
    ensures AutoEdge(h, s, MissedWindow) && ValidTransition(s, MissedWindow)
  {
  }

  lemma ScoringIsProposedWhileWaiting(b: Body, dl: Deadlines, now: int)
    requires Scores(ComputeNextAction(b, dl, now).action)
    ensures b.status in {WaitingScorePhase, ValidatorScoreCommitSubmitted}
    ensures !DidMissRequiredWindow(b.status, ComputeNextAction(b, dl, now).phase)
  {
  }

  lemma RefreshIsGood(id: UInt256, h: Helper, d: Disk, e: RefreshEnv)
    requires ReadState(d).Some? ==> IntactState(d)
    ensures GoodWrites(id, h, d, RefreshTrace(d, e).writes, Automation)
  {
    hide SnapshotTrace, GoodWrite, GoodWrites, ComputeNextAction, DidMissRequiredWindow, ApplyAll, Merge, RollbackTarget;
    NothingIsGood(id, h, d, Automation);
    if e.reorged {
      RollbackNeverHappens(d, e);
    } else if ReadState(d).Some? && e.chain.Some? {
      var r := ReadState(d).value;
      var advice := ComputeNextAction(r.body, e.chain.value, e.now);
      if Scores(advice.action) {
        ScoringIsProposedWhileWaiting(r.body, e.chain.value, e.now);
      }
      if DidMissRequiredWindow(r.body.status, advice.phase) {
        MissedSnapshotIsGood(id, h, d, advice, e);
      } else {
            SnapshotIsGood(id, h, d, [], d, advice.action, e);
      }
    }
  }

  lemma MissedSnapshotIsGood(id: UInt256, h: Helper, d: Disk, advice: Advice, e: RefreshEnv)
    requires IntactState(d) && DidMissRequiredWindow(ReadState(d).value.body.status, advice.phase) && !Scores(advice.action)
    ensures var missed := TransitionState(ReadState(d), MissedWindow, WithOther("missedWindowAt"));
            && missed.Ok?
            && GoodWrites(id, h, d, SnapshotTrace([StateWrite(missed.value)], Apply(d, StateWrite(missed.value)), advice.action, e).writes, Automation)
  {
    hide SnapshotTrace, GoodWrite, GoodWrites, DidMissRequiredWindow, AutoEdge, ValidTransition, Merge, ApplyAll;
    NothingIsGood(id, h, d, Automation);
    MissIsAnAutoEdge(h, ReadState(d).value.body.status, advice.phase);
    ThenTransitionIsGood(id, h, d, [], d, MissedWindow, WithOther("missedWindowAt"), Automation);
    var missed := LegalMoveSucceeds(d, MissedWindow, WithOther("missedWindowAt"));
    var w := StateWrite(missed);
    assert [] + [w] == [w];
    SingleWrite(d, w);
    SnapshotIsGood(id, h, d, [w], Apply(d, w), advice.action, e);
  }

  // ---- operator ----

  lemma ApproveIsGood(id: UInt256, h: Helper, d: Disk, a: ActionName, force: bool, ok: bool)
    requires ReadState(d).Some? ==> IntactState(d)
    requires MaterialLacksProof(d)
    ensures GoodWrites(id, h, d, ApproveTrace(d, a, force, ok).writes, Human)
  {
    NothingIsGood(id, h, d, Human);
    if ReadState(d).Some? && Package(d, a).Some? {
      var tx := Package(d, a).value;
      assert tx.file in {FinalistTx, TrialTx};
      var ws := [tx, NoteWrite("prime_action_review_packet.json"), tx];
      InertWritesAreGood(id, h, d, ws, Human);
      InertWritesChangeNothing(d, ws);
      ThenSetIsGood(id, h, d, ws, d, WithOther("txHandoffs").(status := Some(ReadyStatus(a))), Human);
    }
  }

  lemma MarkIsGood(id: UInt256, h: Helper, d: Disk, a: ActionName, tx: string, force: bool)
    requires ReadState(d).Some? ==> IntactState(d)
    ensures GoodWrites(id, h, d, MarkTrace(d, a, tx, force).writes, Human)
  {
    hide TxReference;
    NothingIsGood(id, h, d, Human);
    if ReadState(d).Some? {
      var ws := [NoteWrite("external_receipt.json")];
      InertWritesAreGood(id, h, d, ws, Human);
      InertWritesChangeNothing(d, ws);
      ThenSetIsGood(id, h, d, ws, d, NO_PATCH.(status := Some(SubmittedStatus(a))), Human);
    }
  }

  // ---- every step, every run ----

  lemma StepIsGood(id: UInt256, h: Helper, d: Disk, s: Step)
    requires ReadState(d).Some? ==> IntactState(d)
    requires MaterialLacksProof(d)
    ensures GoodWrites(id, h, d, StepWrites(id, h, d, s), ActorOf(s))
  {
    hide AdvanceTrace, DiscoverTrace, RefreshTrace, ApproveTrace, MarkTrace, GoodWrites, AutoEdge;
    assert GoodWrites(id, h, d, [], ActorOf(s)) by { NothingIsGood(id, h, d, ActorOf(s)); }
    match s
    case Orchestrate(env) => AdvanceIsGood(id, h, d, env.(helper := h));
    case DiscoverEvent(jobId, ok) => DiscoverIsGood(id, h, d, jobId, ok);
    case ShortlistEvent =>
      if ReadState(d).Some? {
        PatchStepIsGood(id, h, d, WithOther("shortlistBlock").(shortlisted := Some(true)), Automation);
      }
    case WinnerEvent(selected) =>
      if ReadState(d).Some? {
        PatchStepIsGood(id, h, d, WithOther("winnerEvidence").(selected := Some(selected)), Automation);
      }
    case Refresh(e) => RefreshIsGood(id, h, d, e);
    case OperatorSet(p) =>
      if ReadState(d).Some? {
        PatchStepIsGood(id, h, d, ByHand(p), Human);
      }
    case OperatorApprove(a, force, ok) => ApproveIsGood(id, h, d, a, force, ok);
    case OperatorMark(a, tx, force) => MarkIsGood(id, h, d, a, tx, force);
  }

  /** Without a state file only automation writes. */
  lemma OperatorNeedsAState(id: UInt256, h: Helper, d: Disk, s: Step)
    requires ReadState(d).None? && ActorOf(s) == Human
    ensures StepWrites(id, h, d, s) == []
  {
  }

  lemma NextKeepsInv(id: UInt256, h: Helper, d: Disk, a: seq<Actor>, e: Event)
    requires Inv(id, h, d, a)
    ensures Inv(id, h, Next(id, h, d, e), Credit(a, ActorOf(e.step), d, Next(id, h, d, e)))
  {
    hide StepWrites, GoodWrites, GoodWrite, Credit;
    var ws := StepWrites(id, h, d, e.step);
    StepIsGood(id, h, d, e.step);
    var n := if e.survived <= |ws| then e.survived else |ws|;
    assert Upto(ws, e.survived) == ws[..n];
    if ReadState(d).None? && ActorOf(e.step) == Human {
      OperatorNeedsAState(id, h, d, e.step);
      CreditNothing(a, ActorOf(e.step), d);
    } else {
      WritesKeepInv(id, h, d, a, ws, ActorOf(e.step), n);
    }
  }

  /** The invariant holds at the end of every run. */
  lemma {:induction false} RunKeepsInv(id: UInt256, h: Helper, run: seq<Event>)
    ensures Inv(id, h, Run(id, h, run), Authors(id, h, run))
  {
    hide Next, Inv, Credit;
    if run == [] {
      StartIsInvariant(id, h);
    } else {
      RunKeepsInv(id, h, run[..|run| - 1]);
      NextKeepsInv(id, h, Run(id, h, run[..|run| - 1]), Authors(id, h, run[..|run| - 1]), run[|run| - 1]);
    }
  }

  lemma StartIsInvariant(id: UInt256, h: Helper)
    ensures Inv(id, h, map[], [])
  {
  }
}

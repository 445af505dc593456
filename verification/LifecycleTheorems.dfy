/** What holds of every run of a procurement. */
module LifecycleTheorems {
  import opened Basics
  import opened PhaseModel
  import opened Commitments
  import opened ProcState
  import opened Milestones
  import opened NextAction
  import opened ReviewGates
  import opened Handlers
  import opened Operator
  import opened MonitorRefresh
  import opened Lifecycle
  import opened LifecycleSteps

  // ---- commit-reveal continuity ----

  /** Once drafted, the hashes in the state, in the commitment material and in the commit package are equal, and are the
      commitment of the stored URI and salt, exactly when it was the orchestrator that entered ApplicationDrafted;
      the state file tells which it was by recording a commitment or none. */
  lemma CommitRevealContinuity(id: UInt256, h: Helper, run: seq<Event>, i: nat)
    requires i < |HistoryOf(Run(id, h, run))| && HistoryOf(Run(id, h, run))[i].status == ApplicationDrafted
    ensures i < |Authors(id, h, run)|
    ensures Authors(id, h, run)[i] == Automation <==>
            SameCommitment(id, Run(id, h, run), ReadState(Run(id, h, run)).value.body)
    ensures Authors(id, h, run)[i] == Automation <==> ReadState(Run(id, h, run)).value.body.commitmentHash.Some?
  {
    hide Run, Authors;
    RunKeepsInv(id, h, run);
    var d, a := Run(id, h, run), Authors(id, h, run);
    var hist := HistoryOf(d);
    HistoryNeverRepeats(hist);
    if AutoDrafted(hist, a) {
      var j :| 0 <= j < |hist| && j < |a| && hist[j].status == ApplicationDrafted && a[j] == Automation;
      assert i == j;
    }
  }

  lemma RunSnoc(id: UInt256, h: Helper, run: seq<Event>, e: Event)
    ensures Run(id, h, run + [e]) == Next(id, h, Run(id, h, run), e)
    ensures Authors(id, h, run + [e]) == Credit(Authors(id, h, run), ActorOf(e.step), Run(id, h, run), Run(id, h, run + [e]))
  {
    assert (run + [e])[..|run + [e]| - 1] == run;
  }

  function HandSet(s: Status): Event {
    Event(OperatorSet(NO_PATCH.(status := Some(s))), 1)
  }

  /** An intact state with this history and no recorded commitment. */
  predicate Undrafted(d: Disk, hist: seq<Entry>) {
    && IntactState(d) && ReadState(d).value.body.history == hist && ReadState(d).value.body.commitmentHash.None?
    && hist != [] && hist[|hist| - 1].status == ReadState(d).value.body.status
  }

  /** The operator enters a legal next status by hand. */
  lemma HandSetMoves(id: UInt256, h: Helper, run: seq<Event>, hist: seq<Entry>, s: Status)
    requires Undrafted(Run(id, h, run), hist) && ValidTransition(hist[|hist| - 1].status, s) && s != hist[|hist| - 1].status
    ensures Undrafted(Run(id, h, run + [HandSet(s)]), hist + [Entry(s, false)])
  {
    hide ValidTransition, ApplyAll, Run, Authors;
    RunSnoc(id, h, run, HandSet(s));
    var d := Run(id, h, run);
    var w := StateWrite(SetState(ReadState(d), ByHand(NO_PATCH.(status := Some(s)))).value);
    assert Upto([w], 1) == [w];
    assert StepWrites(id, h, d, HandSet(s).step) == [w];
    SingleWrite(d, w);
  }

  /** The failing side of the continuity condition is reached: discovered, then inspected, approved and drafted by hand. */
  lemma HandDraftBreaksContinuity(id: UInt256, h: Helper, jobId: string)
    ensures var run := [Event(DiscoverEvent(jobId, false), 1), HandSet(Inspected), HandSet(FitApproved), HandSet(ApplicationDrafted)];
            var d := Run(id, h, run);
            && |HistoryOf(d)| == 4 && HistoryOf(d)[3].status == ApplicationDrafted
            && ReadState(d).value.body.commitmentHash.None? && !SameCommitment(id, d, ReadState(d).value.body)
  {
    hide Run, Undrafted;
    var e := Event(DiscoverEvent(jobId, false), 1);
    FirstDiscovery(id, h, jobId);
    var h1 := [Entry(Discovered, false)];
    HandSetMoves(id, h, [e], h1, Inspected);
    var h2 := h1 + [Entry(Inspected, false)];
    HandSetMoves(id, h, [e] + [HandSet(Inspected)], h2, FitApproved);
    var h3 := h2 + [Entry(FitApproved, false)];
    HandSetMoves(id, h, [e] + [HandSet(Inspected)] + [HandSet(FitApproved)], h3, ApplicationDrafted);
    var run := [e, HandSet(Inspected), HandSet(FitApproved), HandSet(ApplicationDrafted)];
    assert [e] + [HandSet(Inspected)] + [HandSet(FitApproved)] + [HandSet(ApplicationDrafted)] == run;
    UndraftedHasNoContinuity(id, Run(id, h, run), h3 + [Entry(ApplicationDrafted, false)]);
  }

  lemma UndraftedHasNoContinuity(id: UInt256, d: Disk, hist: seq<Entry>)
    requires Undrafted(d, hist)
    ensures HistoryOf(d) == hist && ReadState(d).value.body.commitmentHash.None? && !SameCommitment(id, d, ReadState(d).value.body)
  {
  }

  lemma FirstDiscovery(id: UInt256, h: Helper, jobId: string)
    ensures Undrafted(Run(id, h, [Event(DiscoverEvent(jobId, false), 1)]), [Entry(Discovered, false)])
  {
    hide ApplyAll;
    var e := Event(DiscoverEvent(jobId, false), 1);
    var w := StateWrite(Attach(EmptyBody(Some(jobId)), false));
    assert [] + [e] == [e];
    RunSnoc(id, h, [], e);
    assert StepWrites(id, h, map[], e.step) == [w];
    assert Upto([w], 1) == [w];
    SingleWrite(map[], w);
  }

  /** A reveal package opens the packaged commitment, and no other pair of URI and salt does. */
  lemma RevealOpensTheCommit(id: UInt256, h: Helper, run: seq<Event>, agent: Address, uri: Uri, salt: Bytes32)
    requires var d := Run(id, h, run);
             RevealTx in d && ReadState(d).Some? && SameCommitment(id, d, ReadState(d).value.body)
    ensures var d := Run(id, h, run);
            d[CommitTx] == CommitTxC(ComputeCommitment(id, agent, uri, salt)) <==>
            d[RevealTx] == RevealTxC(uri, salt) && agent == ReadMaterial(d).value.agent
  {
    hide Run, Authors;
    RunKeepsInv(id, h, run);
    var m := ReadMaterial(Run(id, h, run)).value;
    CommitmentBinds(id, agent, uri, salt, id, m.agent, m.uri, m.salt);
  }

  lemma WriteFreezesCommitment(id: UInt256, h: Helper, d: Disk, a: seq<Actor>, w: Write, actor: Actor)
    requires Inv(id, h, d, a) && GoodWrite(id, h, d, w, actor)
    requires ReadState(d).Some? && ReadState(d).value.body.commitmentHash.Some?
    ensures ReadState(Apply(d, w)).Some?
    ensures ReadState(Apply(d, w)).value.body.commitmentHash == ReadState(d).value.body.commitmentHash
  {
    var b := ReadState(d).value.body;
    if b.status == FitApproved {
      FitApprovedIsBeforeDrafting(b);
    }
  }

  lemma {:induction false} WritesFreezeCommitment(id: UInt256, h: Helper, d: Disk, a: seq<Actor>, ws: seq<Write>, actor: Actor, n: nat)
    requires Inv(id, h, d, a) && GoodWrites(id, h, d, ws, actor) && n <= |ws|
    requires ReadState(d).Some? && ReadState(d).value.body.commitmentHash.Some?
    ensures ReadState(ApplyAll(d, ws[..n])).Some?
    ensures ReadState(ApplyAll(d, ws[..n])).value.body.commitmentHash == ReadState(d).value.body.commitmentHash
  {
    hide Inv, GoodWrite;
    if n > 0 {
      WritesFreezeCommitment(id, h, d, a, ws, actor, n - 1);
      WritesKeepInv(id, h, d, a, ws, actor, n - 1);
      var mid := ApplyAll(d, ws[..n - 1]);
      assert ws[..n][..n - 1] == ws[..n - 1];
      WriteFreezesCommitment(id, h, mid, Credit(a, actor, d, mid), ws[n - 1], actor);
    }
  }

  /** Drafting never recurs: a recorded commitment is the same at the end of every continuation of the run. */
  lemma {:induction false} CommitmentIsFrozen(id: UInt256, h: Helper, run: seq<Event>, n: nat)
    requires n <= |run|
    requires ReadState(Run(id, h, run[..n])).Some? && ReadState(Run(id, h, run[..n])).value.body.commitmentHash.Some?
    ensures ReadState(Run(id, h, run)).Some?
    ensures ReadState(Run(id, h, run)).value.body.commitmentHash == ReadState(Run(id, h, run[..n])).value.body.commitmentHash
    decreases |run|
  {
    hide Inv, GoodWrites, StepWrites;
    if n == |run| {
      assert run[..n] == run;
    } else {
      var before := run[..|run| - 1];
      assert before[..n] == run[..n];
      CommitmentIsFrozen(id, h, before, n);
      RunKeepsInv(id, h, before);
      var d, e := Run(id, h, before), run[|run| - 1];
      var ws := StepWrites(id, h, d, e.step);
      InvIntact(id, h, d, Authors(id, h, before));
      StepIsGood(id, h, d, e.step);
      var k := if e.survived <= |ws| then e.survived else |ws|;
      assert Upto(ws, e.survived) == ws[..k];
      WritesFreezeCommitment(id, h, d, Authors(id, h, before), ws, ActorOf(e.step), k);
    }
  }

  lemma InvIntact(id: UInt256, h: Helper, d: Disk, a: seq<Actor>)
    requires Inv(id, h, d, a)
    ensures ReadState(d).Some? ==> IntactState(d) && HistoryTellsStatus(ReadState(d).value.body)
    ensures MaterialLacksProof(d)
    ensures CreditsOk(h, HistoryOf(d), a)
  {
  }

  // ---- human hard stops ----

  /** The statuses automation enters. */
  predicate EnteredByAutomation(h: Helper, s: Status) {
    || s in {Discovered, Inspected, ApplicationDrafted, CommitReady, TrialInProgress, JobExecutionInProgress, MissedWindow}
    || (h == Defined && s in {RevealReady, TrialReady})
  }

  /** How many status changes automation can still make from a status without the operator. */
  function Budget(s: Status): nat {
    match s
    case FitApproved | FinalistAcceptSubmitted => 3
    case ApplicationDrafted | CommitSubmitted | TrialInProgress => 2
    case Discovered | Selected => 1
    case CommitReady | RevealReady | Shortlisted | FinalistAcceptReady | TrialReady => 1
    case WaitingScorePhase | ValidatorScoreCommitSubmitted => 1
    case _ => 0
  }

  lemma AutoEdgeSpendsBudget(h: Helper, s: Status, t: Status)
    requires AutoEdge(h, s, t)
    ensures Budget(t) < Budget(s) <= 3
    ensures EnteredByAutomation(h, t)
    ensures Ready(s) ==> t == MissedWindow
  {
  }

  /** In every run, an automated step leaves a ready status only to MissedWindow, and everything outside a short list of
      statuses, in particular fit approval, shortlisting, selection and every submission, was entered by the operator. */
  lemma HumanHardStops(id: UInt256, h: Helper, run: seq<Event>, i: nat)
    requires i < |HistoryOf(Run(id, h, run))|
    ensures |Authors(id, h, run)| == |HistoryOf(Run(id, h, run))|
    ensures Authors(id, h, run)[i] == Automation ==> EnteredByAutomation(h, HistoryOf(Run(id, h, run))[i].status)
    ensures i > 0 && Authors(id, h, run)[i] == Automation && Ready(HistoryOf(Run(id, h, run))[i - 1].status) ==>
              HistoryOf(Run(id, h, run))[i].status == MissedWindow
  {
    hide Run, Authors, AutoEdge, EnteredByAutomation, Ready;
    RunKeepsInv(id, h, run);
    var hist, a := HistoryOf(Run(id, h, run)), Authors(id, h, run);
    InvIntact(id, h, Run(id, h, run), a);
    if i > 0 && a[i] == Automation {
      AutoEdgeSpendsBudget(h, hist[i - 1].status, hist[i].status);
    }
    DiscoveryIsAutomatic(h);
  }

  lemma DiscoveryIsAutomatic(h: Helper)
    ensures EnteredByAutomation(h, Discovered)
  {
  }

  lemma {:induction false} AutomationSpendsBudget(h: Helper, hist: seq<Entry>, a: seq<Actor>, i: nat, n: nat)
    requires CreditsOk(h, hist, a) && i + n < |hist|
    requires forall k :: i < k <= i + n ==> a[k] == Automation
    ensures Budget(hist[i + n].status) + n <= Budget(hist[i].status) <= 3 || n == 0
  {
    if n > 0 {
      AutomationSpendsBudget(h, hist, a, i, n - 1);
      AutoEdgeSpendsBudget(h, hist[i + n - 1].status, hist[i + n].status);
    }
  }

  /** In every run, at most three consecutive status changes are automation's. */
  lemma AtMostThreeChangesWithoutTheOperator(id: UInt256, h: Helper, run: seq<Event>, i: nat, n: nat)
    requires i + n < |HistoryOf(Run(id, h, run))|
    requires forall k :: i < k <= i + n && k < |Authors(id, h, run)| ==> Authors(id, h, run)[k] == Automation
    ensures |Authors(id, h, run)| == |HistoryOf(Run(id, h, run))| && n <= 3
  {
    hide Run, Authors, AutoEdge;
    RunKeepsInv(id, h, run);
    InvIntact(id, h, Run(id, h, run), Authors(id, h, run));
    AutomationSpendsBudget(h, HistoryOf(Run(id, h, run)), Authors(id, h, run), i, n);
  }

  /** The outside world lets a draft through. */
  predicate DraftSucceeds(env: Env) {
    && env.chain.Some? && !env.dryRun && DeriveChainPhase(env.chain.value, env.now) == CommitOpen
    && env.agent.Some? && env.subdomain && env.retrievalOk && env.contentOk && env.pinned.Some? && env.encodingOk
  }

  lemma CommitReadyTraceEnds(done: seq<Write>, d: Disk, m: Material)
    requires IntactState(d) && AtStatus(d, FitApproved)
    ensures var ws := CommitReadyTrace(done, d, m).writes;
            && |ws| > 0 && ws[|ws| - 1].file == StateJson && ws[|ws| - 1].content.StateC?
            && var r := ws[|ws| - 1].content.record;
               Verifies(r) && !r.integrityError && r.body.status == CommitReady
               && r.body.history == ReadState(d).value.body.history + [Entry(ApplicationDrafted, false), Entry(CommitReady, false)]
               && "txHandoffs" in r.body.other
  {
    hide TransitionState, SetState, Verifies;
    var drafted := LegalMoveSucceeds(d, ApplicationDrafted, NO_PATCH.(commitment := Some((m.uri, m.salt, m.hash))));
    var d1 := Apply(d, StateWrite(drafted));
    var ready := LegalMoveSucceeds(d1, CommitReady, NO_PATCH);
    StoredKeepsStatus(Apply(d, StateWrite(ready)), WithOther("txHandoffs"));
  }

  lemma LastStateIsRead(d: Disk, ws: seq<Write>)
    requires |ws| > 0 && ws[|ws| - 1].file == StateJson && ws[|ws| - 1].content.StateC?
    ensures ReadState(ApplyAll(d, ws)) == Some(ws[|ws| - 1].content.record)
  {
  }

  lemma DraftReachesCommitReady(id: UInt256, d: Disk, env: Env)
    requires IntactState(d) && AtStatus(d, FitApproved) && DraftSucceeds(env)
    ensures var d' := ApplyAll(d, AdvanceTrace(id, d, env).writes);
            && IntactState(d') && AtStatus(d', CommitReady) && "txHandoffs" in ReadState(d').value.body.other
            && HistoryOf(d') == HistoryOf(d) + [Entry(ApplicationDrafted, false), Entry(CommitReady, false)]
  {
    hide CommitReadyTrace, ApplyAll, DraftContent, ApplicationBundle;
    var m := DraftedMaterial(id, env.agent.value, env.pinned.value, env.salt);
    InertWritesChangeNothing(d, CHECKPOINTS);
    var d1 := ApplyAll(d, CHECKPOINTS);
    CommitReadyTraceEnds(DraftPackage(env, m), d1, m);
    var ws := CommitReadyTrace(DraftPackage(env, m), d1, m).writes;
    assert AdvanceTrace(id, d, env).writes == CHECKPOINTS + ws;
    LastStateIsRead(d, CHECKPOINTS + ws);
  }

  /** The bound of three is attained: a draft, its package, and a miss of the commit window. */
  lemma ThreeChangesHappen(id: UInt256, d: Disk, env: Env, e: RefreshEnv)
    requires IntactState(d) && AtStatus(d, FitApproved) && DraftSucceeds(env)
    requires !e.reorged && e.chain.Some? && DeriveChainPhase(e.chain.value, e.now) != CommitOpen && !e.snapshotOk
    ensures var d1 := ApplyAll(d, AdvanceTrace(id, d, env).writes);
            HistoryOf(ApplyAll(d1, RefreshTrace(d1, e).writes))
            == HistoryOf(d) + [Entry(ApplicationDrafted, false), Entry(CommitReady, false), Entry(MissedWindow, false)]
  {
    hide AdvanceTrace;
    DraftReachesCommitReady(id, d, env);
    var d1 := ApplyAll(d, AdvanceTrace(id, d, env).writes);
    hide ApplyAll;
    MissAfterCommitReady(d1, e);
  }

  lemma MissAfterCommitReady(d: Disk, e: RefreshEnv)
    requires IntactState(d) && AtStatus(d, CommitReady)
    requires !e.reorged && e.chain.Some? && DeriveChainPhase(e.chain.value, e.now) != CommitOpen && !e.snapshotOk
    ensures HistoryOf(ApplyAll(d, RefreshTrace(d, e).writes)) == HistoryOf(d) + [Entry(MissedWindow, false)]
  {
    hide ApplyAll;
    LastStateIsRead(d, RefreshTrace(d, e).writes);
  }

  // ---- histories of runs ----

  /** Every run keeps a legal history that ends in the current status, and its state file verifies. */
  lemma RunsKeepLegalHistory(id: UInt256, h: Helper, run: seq<Event>)
    requires ReadState(Run(id, h, run)).Some?
    ensures IntactState(Run(id, h, run)) && HistoryTellsStatus(ReadState(Run(id, h, run)).value.body)
    ensures |HistoryOf(Run(id, h, run))| <= 23
  {
    hide Run, Authors;
    RunKeepsInv(id, h, run);
    InvIntact(id, h, Run(id, h, run), Authors(id, h, run));
    HistoryNeverRepeats(HistoryOf(Run(id, h, run)));
  }

  // ---- packages and windows ----

  /** The chain phase held at a time read in the same call: by the next-action engine or by the gate. */
  predicate PhaseWasRead(dl: Deadlines, env: Env, p: ChainPhase) {
    DeriveChainPhase(dl, env.now) == p || DeriveChainPhase(dl, env.gateNow) == p
  }

  predicate InWindow(w: Write, dl: Deadlines, env: Env) {
    match w.file
    case CommitTx => PhaseWasRead(dl, env, CommitOpen)
    case RevealTx => PhaseWasRead(dl, env, RevealOpen) && env.helper == Defined
    case TrialTx => PhaseWasRead(dl, env, TrialOpen) && env.helper == Defined
    case FinalistTx => false
    case _ => true
  }

  ghost predicate AllInWindow(ws: seq<Write>, dl: Deadlines, env: Env) {
    forall k :: 0 <= k < |ws| ==> InWindow(ws[k], dl, env)
  }

  lemma DispatchWritesInWindow(id: UInt256, b: Body, d: Disk, dl: Deadlines, env: Env)
    ensures ComputeNextAction(b, dl, env.now).action != BuildCompletionTx
    ensures AllInWindow(DispatchTrace(id, ComputeNextAction(b, dl, env.now).action, d, dl, env).writes, dl, env)
  {
    hide InspectTrace, EvaluateFitTrace, DraftTrace, BuildCommitTrace, BuildRevealTrace,
         BuildFinalistTrace, BuildTrialTrace, ExecuteJobTrace;
    match ComputeNextAction(b, dl, env.now).action
    case Inspect => InspectPackagesNothing(d, dl, env);
    case EvaluateFit => FitPackagesNothing(d, dl, env);
    case DraftApplication => DraftInWindow(id, d, dl, env);
    case BuildCommitTx => CommitInWindow(d, dl, env);
    case BuildRevealTx => RevealInWindow(id, d, dl, env);
    case BuildFinalistTx => FinalistInWindow(d, dl, env);
    case BuildTrial => TrialInWindow(d, dl, env);
    case ExecuteJob => ExecutePackagesNothing(d, dl, env);
    case _ =>
  }

  lemma InspectPackagesNothing(d: Disk, dl: Deadlines, env: Env)
    ensures AllInWindow(InspectTrace(d, env).writes, dl, env)
  {
    hide SetState;
  }

  lemma FitPackagesNothing(d: Disk, dl: Deadlines, env: Env)
    ensures AllInWindow(EvaluateFitTrace(d, env).writes, dl, env)
  {
    hide SetState, ApplyAll;
  }

  lemma ExecutePackagesNothing(d: Disk, dl: Deadlines, env: Env)
    ensures AllInWindow(ExecuteJobTrace(d, env).writes, dl, env)
  {
    hide TransitionState;
  }

  lemma ContentInWindow(phase: string, text: File, dl: Deadlines, env: Env)
    requires text.Note? || text == Brief
    ensures AllInWindow(RetrievalBundle(phase, env.archiveHit), dl, env)
    ensures AllInWindow(RetrievalBundle(phase, env.archiveHit) + ContentBundle(phase, text, env), dl, env)
  {
  }

  lemma ApplicationInWindow(m: Material, dl: Deadlines, env: Env)
    ensures AllInWindow(ApplicationBundle(m), dl, env)
  {
  }

  lemma DraftInWindow(id: UInt256, d: Disk, dl: Deadlines, env: Env)
    requires DeriveChainPhase(dl, env.now) == CommitOpen
    ensures AllInWindow(DraftTrace(id, d, env).writes, dl, env)
  {
    hide CommitReadyTrace, RetrievalBundle, ContentBundle, ApplicationBundle, ComputeCommitment;
    ContentInWindow("application", Brief, dl, env);
    if env.agent.Some? && env.pinned.Some? {
      var m := DraftedMaterial(id, env.agent.value, env.pinned.value, env.salt);
      ApplicationInWindow(m, dl, env);
      CommitReadyInWindow(DraftPackage(env, m), d, m, dl, env);
    }
  }

  lemma CommitReadyInWindow(done: seq<Write>, d: Disk, m: Material, dl: Deadlines, env: Env)
    requires AllInWindow(done, dl, env)
    ensures AllInWindow(CommitReadyTrace(done, d, m).writes, dl, env)
  {
    hide TransitionState, SetState;
  }

  lemma CommitInWindow(d: Disk, dl: Deadlines, env: Env)
    ensures AllInWindow(BuildCommitTrace(d, dl, env).writes, dl, env)
  {
  }

  lemma RevealInWindow(id: UInt256, d: Disk, dl: Deadlines, env: Env)
    ensures AllInWindow(BuildRevealTrace(id, d, dl, env).writes, dl, env)
  {
  }

  lemma FinalistInWindow(d: Disk, dl: Deadlines, env: Env)
    ensures AllInWindow(BuildFinalistTrace(d, dl, env).writes, dl, env)
  {
    FinalistGateNeverPasses(d, dl, env.gateNow);
  }

  lemma TrialInWindow(d: Disk, dl: Deadlines, env: Env)
    ensures AllInWindow(BuildTrialTrace(d, dl, env).writes, dl, env)
  {
    hide TrialWorkTrace, TransitionState;
    if ReadState(d).Some? {
      TrialWorkInWindow([], d, dl, env);
      match TransitionState(ReadState(d), TrialInProgress, NO_PATCH)
      case Ok(working) => TrialWorkInWindow([StateWrite(working)], Apply(d, StateWrite(working)), dl, env);
      case Err(_) =>
    }
  }

  lemma TrialWorkInWindow(done: seq<Write>, d: Disk, dl: Deadlines, env: Env)
    requires AllInWindow(done, dl, env)
    ensures AllInWindow(TrialWorkTrace(done, d, dl, env).writes, dl, env)
  {
    hide TrialPackageTrace, RetrievalBundle, ContentBundle, ApplyAll;
    ContentInWindow("trial", Note("trial/trial_deliverable.md"), dl, env);
    if env.pinned.Some? {
      TrialPackageInWindow(done + TrialContent(env), ApplyAll(d, TrialContent(env)), dl, env, env.pinned.value);
    }
  }

  lemma TrialBundleInWindow(uri: Uri, verified: bool, dl: Deadlines, env: Env)
    ensures AllInWindow(TrialBundle(uri, verified), dl, env)
  {
  }

  lemma TrialPackageInWindow(done: seq<Write>, d: Disk, dl: Deadlines, env: Env, uri: Uri)
    requires AllInWindow(done, dl, env)
    ensures AllInWindow(TrialPackageTrace(done, d, dl, env, uri).writes, dl, env)
  {
    hide TrialReadyTrace, TrialBundle, ApplyAll;
    var bundle := TrialBundle(uri, env.fetchback);
    TrialBundleInWindow(uri, env.fetchback, dl, env);
    if env.helper == Defined && TrialConditions(ApplyAll(d, bundle), dl, env.gateNow) {
      assert InWindow(Write(TrialTx, TrialUriC(uri)), dl, env);
      TrialReadyInWindow(done + bundle + [Write(TrialTx, TrialUriC(uri))], d, dl, env);
    }
  }

  lemma TrialReadyInWindow(done: seq<Write>, d: Disk, dl: Deadlines, env: Env)
    requires AllInWindow(done, dl, env)
    ensures AllInWindow(TrialReadyTrace(done, d, env).writes, dl, env)
  {
    hide SetState, TransitionState;
  }

  /** Whatever the files hold, an orchestrator call packages a commit, reveal or trial transaction only if the matching
      window was open at a time read in that call; it never packages a finalist acceptance; and while the gates'
      helper is undefined it packages nothing but the commit of a fresh draft. */
  lemma PackagesAreBuiltInTheirWindow(id: UInt256, d: Disk, env: Env)
    ensures env.chain.Some? ==> AllInWindow(AdvanceTrace(id, d, env).writes, env.chain.value, env)
    ensures env.chain.None? ==> AdvanceTrace(id, d, env).writes == []
  {
    hide DispatchTrace, ComputeNextAction;
    if env.chain.Some? && OnRead(ReadState(d)).Some? {
      DispatchWritesInWindow(id, OnRead(ReadState(d)).value.body, ApplyAll(d, CHECKPOINTS), env.chain.value, env);
    }
  }

  // ---- the gates as they stand ----

  /** With the helper undefined, a draft interrupted between its two status writes is never completed: no orchestrator
      call, monitor step or operator command moves it anywhere but to MissedWindow. */
  lemma InterruptedDraftIsStuck(id: UInt256, d: Disk, a: seq<Actor>, e: Event)
    requires Inv(id, Undefined, d, a) && AtStatus(d, ApplicationDrafted) && !e.step.OperatorSet?
    ensures AtStatus(Next(id, Undefined, d, e), ApplicationDrafted) || AtStatus(Next(id, Undefined, d, e), MissedWindow)
  {
    hide StepWrites, Inv;
    InvIntact(id, Undefined, d, a);
    var ws := StepWrites(id, Undefined, d, e.step);
    StuckWrites(id, d, e.step);
    var n := if e.survived <= |ws| then e.survived else |ws|;
    assert Upto(ws, e.survived) == ws[..n];
    StaysStuck(d, ws[..n]);
  }

  predicate StuckState(w: Write) {
    w.file == StateJson ==> w.content.StateC? && w.content.record.body.status in {ApplicationDrafted, MissedWindow}
  }

  lemma {:induction false} StaysStuck(d: Disk, ws: seq<Write>)
    requires AtStatus(d, ApplicationDrafted)
    requires forall k :: 0 <= k < |ws| ==> StuckState(ws[k])
    ensures AtStatus(ApplyAll(d, ws), ApplicationDrafted) || AtStatus(ApplyAll(d, ws), MissedWindow)
  {
    if ws != [] {
      StaysStuck(d, ws[..|ws| - 1]);
      assert StuckState(ws[|ws| - 1]);
    }
  }

  lemma StuckWrites(id: UInt256, d: Disk, s: Step)
    requires IntactState(d) && AtStatus(d, ApplicationDrafted) && MaterialLacksProof(d) && !s.OperatorSet?
    ensures forall k :: 0 <= k < |StepWrites(id, Undefined, d, s)| ==> StuckState(StepWrites(id, Undefined, d, s)[k])
  {
    hide AdvanceTrace, DiscoverTrace, RefreshTrace, ApproveTrace, MarkTrace;
    match s
    case Orchestrate(env) => StuckOrchestrator(id, d, env.(helper := Undefined));
    case DiscoverEvent(jobId, ok) => assert DiscoverTrace(d, jobId, ok).writes == [] by { DiscoverIsIdempotent(d, jobId, ok); }
    case ShortlistEvent =>
    case WinnerEvent(selected) =>
    case Refresh(e) => StuckRefresh(d, e);
    case OperatorApprove(a, force, ok) => StuckApproval(d, a, force, ok);
    case OperatorMark(a, tx, force) => StuckMark(d, a, tx, force);
  }

  lemma DiscoverIsIdempotent(d: Disk, jobId: string, ok: bool)
    requires ReadState(d).Some?
    ensures DiscoverTrace(d, jobId, ok).writes == []
  {
  }

  lemma StuckOrchestrator(id: UInt256, d: Disk, env: Env)
    requires IntactState(d) && AtStatus(d, ApplicationDrafted) && env.helper == Undefined
    ensures AdvanceTrace(id, d, env).writes == [] || AdvanceTrace(id, d, env).writes == CHECKPOINTS
  {
    InertWritesChangeNothing(d, CHECKPOINTS);
  }

  lemma StuckRefresh(d: Disk, e: RefreshEnv)
    requires IntactState(d) && AtStatus(d, ApplicationDrafted)
    ensures var ws := RefreshTrace(d, e).writes; forall k :: 0 <= k < |ws| ==> StuckState(ws[k])
  {
    hide SnapshotTrace, Merge, ApplyAll;
    if e.reorged {
      RollbackNeverHappens(d, e);
    } else if e.chain.Some? {
      var action := ComputeNextAction(ReadState(d).value.body, e.chain.value, e.now).action;
      StuckSnapshot([], d, action, e);
      var missed := TransitionState(ReadState(d), MissedWindow, WithOther("missedWindowAt"));
      if missed.Ok? {
        StuckSnapshot([StateWrite(missed.value)], Apply(d, StateWrite(missed.value)), action, e);
      }
    }
  }

  lemma StuckSnapshot(done: seq<Write>, d: Disk, action: Action, e: RefreshEnv)
    requires AtStatus(d, ApplicationDrafted) || AtStatus(d, MissedWindow)
    requires !Scores(action) && forall k :: 0 <= k < |done| ==> StuckState(done[k])
    ensures var ws := SnapshotTrace(done, d, action, e).writes; forall k :: 0 <= k < |ws| ==> StuckState(ws[k])
  {
    hide ApplyAll, SetState;
    var taken := ApplyAll(d, SNAPSHOTS);
    InertWritesChangeNothing(d, SNAPSHOTS);
    assert ApplyAll(taken, []) == taken by { NoWrites(taken); }
    StoredKeepsStatus(taken, WithOther("lastChainSync"));
    var end := ThenSet(done + SNAPSHOTS, taken, WithOther("lastChainSync")).writes;
    assert done + SNAPSHOTS + [] == done + SNAPSHOTS;
    assert forall k :: 0 <= k < |SNAPSHOTS| ==> StuckState(SNAPSHOTS[k]);
  }

  lemma StuckApproval(d: Disk, a: ActionName, force: bool, ok: bool)
    requires IntactState(d) && AtStatus(d, ApplicationDrafted) && MaterialLacksProof(d)
    ensures var ws := ApproveTrace(d, a, force, ok).writes; forall k :: 0 <= k < |ws| ==> StuckState(ws[k])
  {
  }

  lemma StuckMark(d: Disk, a: ActionName, tx: string, force: bool)
    requires IntactState(d) && AtStatus(d, ApplicationDrafted)
    ensures var ws := MarkTrace(d, a, tx, force).writes; forall k :: 0 <= k < |ws| ==> StuckState(ws[k])
  {
  }

  /** In every run the approval command refuses to package a commit or a reveal: the commitment material
      the orchestrator writes lacks the subdomain and proof the command insists on. */
  lemma ApprovalNeverPackagesCommitOrReveal(id: UInt256, h: Helper, run: seq<Event>, a: ActionName, force: bool, ok: bool)
    requires a.CommitAction? || a.RevealAction?
    ensures ApproveTrace(Run(id, h, run), a, force, ok).writes == []
  {
    hide Run, Authors;
    RunKeepsInv(id, h, run);
  }
}

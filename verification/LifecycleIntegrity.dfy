/** A state file that does not verify, over whole runs: the orchestrator never touches the procurement again, whatever
    else happens to it; the monitor's refresh goes on changing its status. */
module LifecycleIntegrity {
  import opened Basics
  import opened PhaseModel
  import opened Commitments
  import opened ProcState
  import opened NextAction
  import opened ReviewGates
  import opened Handlers
  import opened Operator
  import opened MonitorRefresh
  import opened Lifecycle
  import opened LifecycleSteps

  /** A read of the state file reports an integrity error. */
  predicate Broken(d: Disk) {
    ReadState(d).Some? && OnRead(ReadState(d)).value.integrityError
  }

  // ---- the orchestrator throws exactly on a broken file ----

  /** The outcome of anything but the integrity assertion. */
  predicate Ordinary(t: Trace) {
    !t.outcome.IntegrityThrow?
  }

  lemma DraftIsOrdinary(id: UInt256, d: Disk, env: Env)
    ensures Ordinary(DraftTrace(id, d, env))
  {
    hide TransitionState, SetState;
  }

  lemma PackagingIsOrdinary(id: UInt256, d: Disk, dl: Deadlines, env: Env)
    ensures Ordinary(BuildCommitTrace(d, dl, env)) && Ordinary(BuildRevealTrace(id, d, dl, env))
    ensures Ordinary(BuildFinalistTrace(d, dl, env))
  {
    hide TransitionState, CommitConditions, RevealConditions, FinalistConditions, ApplyAll;
  }

  lemma TrialIsOrdinary(d: Disk, dl: Deadlines, env: Env)
    ensures Ordinary(BuildTrialTrace(d, dl, env))
  {
    hide TransitionState, SetState, TrialConditions, ApplyAll;
  }

  lemma DispatchIsOrdinary(id: UInt256, action: Action, d: Disk, dl: Deadlines, env: Env)
    requires action != BuildCompletionTx
    ensures Ordinary(DispatchTrace(id, action, d, dl, env))
  {
    hide DraftTrace, BuildCommitTrace, BuildRevealTrace, BuildFinalistTrace, BuildTrialTrace, TransitionState, SetState, ApplyAll;
    DraftIsOrdinary(id, d, env);
    PackagingIsOrdinary(id, d, dl, env);
    TrialIsOrdinary(d, dl, env);
  }

  /** The orchestrator stops on its integrity assertion, having written nothing, exactly when the file reads broken. */
  lemma OrchestratorRefusesBrokenState(id: UInt256, d: Disk, env: Env)
    ensures Broken(d) <==> AdvanceTrace(id, d, env).outcome == IntegrityThrow
    ensures Broken(d) ==> AdvanceTrace(id, d, env).writes == []
  {
    hide DispatchTrace, ComputeNextAction, ApplyAll;
    if ReadState(d).Some? && !Broken(d) && env.chain.Some? {
      var b := OnRead(ReadState(d)).value.body;
      CompletionIsNeverProposed(b, env.chain.value, env.now);
      DispatchIsOrdinary(id, ComputeNextAction(b, env.chain.value, env.now).action, ApplyAll(d, CHECKPOINTS), env.chain.value, env);
    }
  }

  // ---- broken stays broken, whoever writes ----

  predicate RecordsError(w: Write) {
    w.file == StateJson ==> w.content.StateC? && w.content.record.integrityError
  }

  predicate AllRecordError(ws: seq<Write>) {
    forall k :: 0 <= k < |ws| ==> RecordsError(ws[k])
  }

  lemma {:induction false} BrokenStays(d: Disk, ws: seq<Write>)
    requires Broken(d) && AllRecordError(ws)
    ensures Broken(ApplyAll(d, ws))
  {
    if ws != [] {
      BrokenStays(d, ws[..|ws| - 1]);
      assert RecordsError(ws[|ws| - 1]);
    }
  }

  lemma BrokenStateIsWrittenBroken(d: Disk, p: Patch, s: Status)
    requires Broken(d)
    ensures SetState(ReadState(d), p).Ok? ==> SetState(ReadState(d), p).value.integrityError
    ensures TransitionState(ReadState(d), s, p).Ok? ==> TransitionState(ReadState(d), s, p).value.integrityError
  {
    hide ValidTransition, Merge;
  }

  lemma ThenSetRecordsError(done: seq<Write>, d: Disk, p: Patch)
    requires Broken(d) && AllRecordError(done)
    ensures AllRecordError(ThenSet(done, d, p).writes)
  {
    hide SetState;
    BrokenStateIsWrittenBroken(d, p, Discovered);
  }

  lemma BlockedRecordsError(d: Disk)
    requires Broken(d)
    ensures AllRecordError(BlockedWrites(d))
  {
    hide SetState;
    BrokenStateIsWrittenBroken(d, WithOther("validatorScoringBlockedReason"), Discovered);
  }

  lemma MissedRecordsError(d: Disk)
    requires Broken(d)
    ensures AllRecordError(MissedWrites(d))
  {
    hide TransitionState, BlockedWrites;
    BlockedRecordsError(d);
    BrokenStateIsWrittenBroken(d, WithOther("missedWindowAt"), MissedWindow);
    var r := TransitionState(ReadState(d), MissedWindow, WithOther("missedWindowAt"));
    if r.Ok? {
      BlockedRecordsError(Apply(d, StateWrite(r.value)));
    }
  }

  lemma PackagedRecordsError(d: Disk, action: Action, complete: bool)
    requires Broken(d)
    ensures AllRecordError(PackagedWrites(d, action, complete))
  {
    hide TransitionState, BlockedWrites;
    BlockedRecordsError(d);
    BrokenStateIsWrittenBroken(d, WithOther("validatorScore"), ScoringTarget(action));
  }

  lemma AssignedRecordsError(d: Disk, action: Action, phase: ChainPhase, run: ScoringRun)
    requires Broken(d)
    ensures AllRecordError(AssignedWrites(d, action, phase, run))
  {
    hide BlockedWrites, MissedWrites, PackagedWrites, ScoringPackage, ApplyAll;
    BlockedRecordsError(d);
    MissedRecordsError(d);
    var n := if run.PackagingFails? then run.written else 0;
    PackageIsInert(action, n);
    if run.Packaged? {
      var package := ScoringPackage(action) + [NoteWrite("reconciliation_snapshot.json")];
      BrokenStays(d, package);
      PackagedRecordsError(ApplyAll(d, package), action, run.complete);
    }
  }

  lemma ScoringRecordsError(d: Disk, action: Action, phase: ChainPhase, run: ScoringRun)
    requires Broken(d)
    ensures AllRecordError(ScoringWrites(d, action, phase, run))
  {
    hide AssignedWrites, SetState, ApplyAll;
    if !run.AssignmentFails? {
      BrokenStateIsWrittenBroken(d, Role(!run.NotAssigned?), Discovered);
      var role := [ASSIGNMENT] + Stored(SetState(ReadState(d), Role(!run.NotAssigned?)));
      BrokenStays(d, role);
      AssignedRecordsError(ApplyAll(d, role), action, phase, run);
    }
  }

  lemma SnapshotRecordsError(done: seq<Write>, d: Disk, action: Action, e: RefreshEnv)
    requires Broken(d) && AllRecordError(done)
    ensures AllRecordError(SnapshotTrace(done, d, action, e).writes)
  {
    hide ScoringWrites, SetState, ApplyAll;
    BrokenStays(d, SNAPSHOTS);
    var taken := ApplyAll(d, SNAPSHOTS);
    ScoringRecordsError(taken, action, ScoringPhase(e), e.validator);
    var scored := if Scores(action) && e.agentKnown then ScoringWrites(taken, action, ScoringPhase(e), e.validator) else [];
    BrokenStays(taken, scored);
    ThenSetRecordsError(done + SNAPSHOTS + scored, ApplyAll(taken, scored), WithOther("lastChainSync"));
  }

  lemma RefreshRecordsError(d: Disk, e: RefreshEnv)
    requires Broken(d)
    ensures AllRecordError(RefreshTrace(d, e).writes)
  {
    hide SnapshotTrace, ComputeNextAction, DidMissRequiredWindow, TransitionState, SetState, ApplyAll;
    if e.reorged {
      RollbackNeverHappens(d, e);
    } else if e.chain.Some? {
      var advice := ComputeNextAction(ReadState(d).value.body, e.chain.value, e.now);
      SnapshotRecordsError([], d, advice.action, e);
      BrokenStateIsWrittenBroken(d, WithOther("missedWindowAt"), MissedWindow);
      var missed := TransitionState(ReadState(d), MissedWindow, WithOther("missedWindowAt"));
      if missed.Ok? {
        SnapshotRecordsError([StateWrite(missed.value)], Apply(d, StateWrite(missed.value)), advice.action, e);
      }
    }
  }

  lemma OperatorRecordsError(d: Disk, a: ActionName, tx: string, force: bool, ok: bool)
    requires Broken(d)
    ensures AllRecordError(ApproveTrace(d, a, force, ok).writes) && AllRecordError(MarkTrace(d, a, tx, force).writes)
  {
    hide SetState, Package, TxReference, ApprovableFrom;
    if Package(d, a).Some? {
      var pkg := Package(d, a).value;
      ThenSetRecordsError([pkg, NoteWrite("prime_action_review_packet.json"), pkg], d, WithOther("txHandoffs").(status := Some(ReadyStatus(a))));
    }
    ThenSetRecordsError([NoteWrite("external_receipt.json")], d, NO_PATCH.(status := Some(SubmittedStatus(a))));
  }

  lemma StepRecordsError(id: UInt256, h: Helper, d: Disk, s: Step)
    requires Broken(d)
    ensures AllRecordError(StepWrites(id, h, d, s))
  {
    hide AdvanceTrace, RefreshTrace, ApproveTrace, MarkTrace, SetState;
    match s
    case Orchestrate(env) => OrchestratorRefusesBrokenState(id, d, env.(helper := h));
    case DiscoverEvent(jobId, ok) =>
    case ShortlistEvent => ThenSetRecordsError([], d, WithOther("shortlistBlock").(shortlisted := Some(true)));
    case WinnerEvent(selected) => ThenSetRecordsError([], d, WithOther("winnerEvidence").(selected := Some(selected)));
    case Refresh(e) => RefreshRecordsError(d, e);
    case OperatorSet(p) => ThenSetRecordsError([], d, ByHand(p));
    case OperatorApprove(a, force, ok) => OperatorRecordsError(d, a, "", force, ok);
    case OperatorMark(a, tx, force) => OperatorRecordsError(d, a, tx, force, false);
  }

  // ---- runs after tampering ----

  /** The files after a run that starts from `d`. */
  function RunFrom(id: UInt256, h: Helper, d: Disk, run: seq<Event>): Disk {
    if run == [] then d else Next(id, h, RunFrom(id, h, d, run[..|run| - 1]), run[|run| - 1])
  }

  lemma {:induction false} RunsCompose(id: UInt256, h: Helper, before: seq<Event>, after: seq<Event>)
    ensures RunFrom(id, h, Run(id, h, before), after) == Run(id, h, before + after)
  {
    hide Next;
    if after == [] {
      assert before + after == before;
    } else {
      RunsCompose(id, h, before, after[..|after| - 1]);
      assert (before + after)[..|before + after| - 1] == before + after[..|after| - 1];
    }
  }

  lemma {:induction false} BrokenForGood(id: UInt256, h: Helper, d: Disk, run: seq<Event>)
    requires Broken(d)
    ensures Broken(RunFrom(id, h, d, run))
  {
    hide StepWrites, Broken;
    if run != [] {
      BrokenForGood(id, h, d, run[..|run| - 1]);
      var before, e := RunFrom(id, h, d, run[..|run| - 1]), run[|run| - 1];
      StepRecordsError(id, h, before, e.step);
      BrokenStays(before, Upto(StepWrites(id, h, before, e.step), e.survived));
    }
  }

  /** The hashed fields of the state file are edited behind the program's back; its stored hash is left alone. */
  function Tampered(d: Disk, altered: Body): Disk
    requires ReadState(d).Some?
  {
    d[StateJson := StateC(ReadState(d).value.(body := altered))]
  }

  /** Edit the state file at any point of any run: at every later point, and whatever the outside world answers, the
      orchestrator stops on the integrity assertion if and only if the edit changed a field. */
  lemma TamperingIsNeverForgotten(id: UInt256, h: Helper, before: seq<Event>, altered: Body, after: seq<Event>, env: Env)
    requires ReadState(Run(id, h, before)).Some?
    ensures AdvanceTrace(id, RunFrom(id, h, Tampered(Run(id, h, before), altered), after), env).outcome == IntegrityThrow <==>
            altered != ReadState(Run(id, h, before)).value.body
  {
    hide Run, RunFrom, Authors, AdvanceTrace, Inv;
    var d := Run(id, h, before);
    RunIsIntact(id, h, before);
    OrchestratorRefusesBrokenState(id, RunFrom(id, h, Tampered(d, altered), after), env);
    if altered == ReadState(d).value.body {
      assert Tampered(d, altered) == d;
      RunsCompose(id, h, before, after);
      RunIsIntact(id, h, before + after);
    } else {
      BrokenForGood(id, h, Tampered(d, altered), after);
    }
  }

  lemma RunIsIntact(id: UInt256, h: Helper, run: seq<Event>)
    ensures ReadState(Run(id, h, run)).Some? ==> IntactState(Run(id, h, run))
  {
    hide Run, Authors, CreditsOk, Bound;
    RunKeepsInv(id, h, run);
  }

  // ---- what a refresh does to the status, on any file ----

  /** The scoring run gets as far as its window check, after the window has closed. */
  predicate ScoringMisses(action: Action, phase: ChainPhase, run: ScoringRun) {
    && (run.PackagingFails? || run.Packaged?)
    && Order(phase) > Order(ScoringWindow(action))
  }

  predicate DeclaresMiss(b: Body, e: RefreshEnv) {
    && !e.reorged && e.chain.Some?
    && var advice := ComputeNextAction(b, e.chain.value, e.now);
       || DidMissRequiredWindow(b.status, advice.phase)
       || (Scores(advice.action) && e.snapshotOk && e.agentKnown && ScoringMisses(advice.action, ScoringPhase(e), e.validator))
  }

  lemma StoredAt(d: Disk, p: Patch, s: Status)
    requires AtStatus(d, s) && p.status.None?
    ensures AtStatus(ApplyAll(d, Stored(SetState(ReadState(d), p))), s)
  {
    hide SetState, ApplyAll;
    StoredKeepsStatus(d, p);
    SingleWrite(d, StateWrite(SetState(ReadState(d), p).value));
  }

  lemma MissMoves(d: Disk, s: Status)
    requires AtStatus(d, s) && ValidTransition(s, MissedWindow)
    ensures var r := TransitionState(ReadState(d), MissedWindow, WithOther("missedWindowAt"));
            r.Ok? && AtStatus(Apply(d, StateWrite(r.value)), MissedWindow)
  {
    hide ValidTransition;
  }

  predicate Waiting(s: Status) {
    s in {WaitingScorePhase, ValidatorScoreCommitSubmitted}
  }

  lemma MissedWritesMove(d: Disk, s: Status)
    requires AtStatus(d, s) && Waiting(s)
    ensures AtStatus(ApplyAll(d, MissedWrites(d)), MissedWindow)
  {
    hide SetState, TransitionState, ApplyAll;
    MissMoves(d, s);
    var w := StateWrite(TransitionState(ReadState(d), MissedWindow, WithOther("missedWindowAt")).value);
    StoredAt(Apply(d, w), WithOther("validatorScoringBlockedReason"), MissedWindow);
    SingleWrite(d, w);
    ApplyAllConcat(d, [w], BlockedWrites(Apply(d, w)));
  }

  lemma BlockedKeepsStatus(d: Disk, s: Status)
    requires AtStatus(d, s)
    ensures AtStatus(ApplyAll(d, BlockedWrites(d)), s)
  {
    hide SetState, ApplyAll;
    StoredAt(d, WithOther("validatorScoringBlockedReason"), s);
  }

  lemma PackageKeepsStatus(d: Disk, s: Status, action: Action, complete: bool)
    requires AtStatus(d, s) && Waiting(s)
    ensures var package := ScoringPackage(action) + [NoteWrite("reconciliation_snapshot.json")];
            AtStatus(ApplyAll(d, package + PackagedWrites(ApplyAll(d, package), action, complete)), s)
  {
    hide ApplyAll, BlockedWrites, ScoringPackage;
    var package := ScoringPackage(action) + [NoteWrite("reconciliation_snapshot.json")];
    PackageIsInert(action, 0);
    InertWritesChangeNothing(d, package);
    BlockedKeepsStatus(ApplyAll(d, package), s);
    ApplyAllConcat(d, package, PackagedWrites(ApplyAll(d, package), action, complete));
  }

  lemma AssignedStatus(d: Disk, s: Status, action: Action, phase: ChainPhase, run: ScoringRun)
    requires AtStatus(d, s) && Waiting(s)
    ensures AtStatus(ApplyAll(d, AssignedWrites(d, action, phase, run)), if ScoringMisses(action, phase, run) then MissedWindow else s)
  {
    hide ApplyAll, MissedWrites, BlockedWrites, PackagedWrites, ScoringPackage, AtStatus;
    NoWrites(d);
    MissedWritesMove(d, s);
    BlockedKeepsStatus(d, s);
    if run.PackagingFails? {
      PackageIsInert(action, run.written);
      InertWritesKeepStatus(d, s, Upto(ScoringPackage(action), run.written));
    } else if run.Packaged? {
      PackageKeepsStatus(d, s, action, run.complete);
    }
  }

  lemma InertWritesKeepStatus(d: Disk, s: Status, ws: seq<Write>)
    requires AtStatus(d, s) && AllInert(ws)
    ensures AtStatus(ApplyAll(d, ws), s)
  {
    InertWritesChangeNothing(d, ws);
  }

  lemma ScoringStatus(d: Disk, s: Status, action: Action, phase: ChainPhase, run: ScoringRun)
    requires AtStatus(d, s) && Waiting(s)
    ensures AtStatus(ApplyAll(d, ScoringWrites(d, action, phase, run)), if ScoringMisses(action, phase, run) then MissedWindow else s)
  {
    hide SetState, ApplyAll, AssignedWrites;
    NoWrites(d);
    if !run.AssignmentFails? {
      var note, stored := [ASSIGNMENT], Stored(SetState(ReadState(d), Role(!run.NotAssigned?)));
      InertWritesChangeNothing(d, note);
      StoredAt(ApplyAll(d, note), Role(!run.NotAssigned?), s);
      ApplyAllConcat(d, note, stored);
      AssignedStatus(ApplyAll(d, note + stored), s, action, phase, run);
      ApplyAllConcat(d, note + stored, AssignedWrites(ApplyAll(d, note + stored), action, phase, run));
    }
  }

  lemma SnapshotStatus(d0: Disk, done: seq<Write>, s: Status, action: Action, e: RefreshEnv)
    requires var d := ApplyAll(d0, done); AtStatus(d, s) && (Scores(action) ==> Waiting(s))
    ensures var misses := Scores(action) && e.snapshotOk && e.agentKnown && ScoringMisses(action, ScoringPhase(e), e.validator);
            AtStatus(ApplyAll(d0, SnapshotTrace(done, ApplyAll(d0, done), action, e).writes), if misses then MissedWindow else s)
  {
    hide SetState, ApplyAll, ScoringWrites, ScoringMisses;
    var d := ApplyAll(d0, done);
    InertWritesChangeNothing(d, SNAPSHOTS);
    ApplyAllConcat(d0, done, SNAPSHOTS);
    var taken := ApplyAll(d, SNAPSHOTS);
    NoWrites(taken);
    var scores := Scores(action) && e.agentKnown;
    var scored := if scores then ScoringWrites(taken, action, ScoringPhase(e), e.validator) else [];
    if scores {
      ScoringStatus(taken, s, action, ScoringPhase(e), e.validator);
    }
    var end := if scores && ScoringMisses(action, ScoringPhase(e), e.validator) then MissedWindow else s;
    ApplyAllConcat(d0, done + SNAPSHOTS, scored);
    SyncKeepsStatus(d0, done + SNAPSHOTS + scored, end);
  }

  lemma SyncKeepsStatus(d0: Disk, done: seq<Write>, s: Status)
    requires AtStatus(ApplyAll(d0, done), s)
    ensures AtStatus(ApplyAll(d0, ThenSet(done, ApplyAll(d0, done), WithOther("lastChainSync")).writes), s)
  {
    hide SetState, ApplyAll;
    var d := ApplyAll(d0, done);
    StoredAt(d, WithOther("lastChainSync"), s);
    ApplyAllConcat(d0, done, Stored(SetState(ReadState(d), WithOther("lastChainSync"))));
  }

  /** A refresh does not look at integrity: on any state file, broken or not, it changes the status exactly when it declares
      a miss, itself or through the scoring run, and then to MissedWindow. */
  lemma RefreshIgnoresIntegrity(d: Disk, e: RefreshEnv)
    requires ReadState(d).Some?
    ensures var b := ReadState(d).value.body;
            AtStatus(ApplyAll(d, RefreshTrace(d, e).writes), if DeclaresMiss(b, e) then MissedWindow else b.status)
            && (DeclaresMiss(b, e) ==> b.status != MissedWindow)
  {
    hide SnapshotTrace, ComputeNextAction, DidMissRequiredWindow, ScoringMisses, ApplyAll, TransitionState, RollbackTarget;
    var b := ReadState(d).value.body;
    NoWrites(d);
    if e.reorged {
      RollbackNeverHappens(d, e);
    } else if e.chain.Some? {
      var advice := ComputeNextAction(b, e.chain.value, e.now);
      TerminalDeclaresNothing(b, e);
      if Scores(advice.action) {
        ScoringIsProposedWhileWaiting(b, e.chain.value, e.now);
      }
      if DidMissRequiredWindow(b.status, advice.phase) {
        MissIsAnAutoEdge(Defined, b.status, advice.phase);
        MissMoves(d, b.status);
        var w := StateWrite(TransitionState(ReadState(d), MissedWindow, WithOther("missedWindowAt")).value);
        SingleWrite(d, w);
        SnapshotStatus(d, [w], MissedWindow, advice.action, e);
      } else if !Terminal(b.status) {
        SnapshotStatus(d, [], b.status, advice.action, e);
      }
    }
  }

  lemma TerminalDeclaresNothing(b: Body, e: RefreshEnv)
    ensures Terminal(b.status) ==> !DeclaresMiss(b, e)
  {
  }
}

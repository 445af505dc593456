/** What the monitor leaves behind in the directory of one procurement when nothing interrupts it. */
module MonitorOutcomes {
  import opened Basics
  import opened PhaseModel
  import opened ProcState
  import opened NextAction
  import opened ReviewGates
  import opened Handlers
  import opened MonitorRefresh
  import opened Lifecycle
  import opened LifecycleSteps

  /** Status, history and the fields outside `other` and the validator assignment are as before; no note is lost. */
  predicate OnlyNoted(b: Body, b': Body) {
    && b'.status == b.status && b'.history == b.history && b'.linkedJobId == b.linkedJobId
    && b'.applicationURI == b.applicationURI && b'.commitmentSalt == b.commitmentSalt && b'.commitmentHash == b.commitmentHash
    && b'.fitEvaluated == b.fitEvaluated && b'.shortlisted == b.shortlisted && b'.selected == b.selected
    && b.other.Keys <= b'.other.Keys
  }

  // ---- discovery and events ----

  /** Discovery leaves a known procurement alone; a new one it enters as DISCOVERED with its job, and inspects. */
  lemma DiscoveryLeaves(d: Disk, jobId: string, inspectionOk: bool)
    ensures ReadState(d).Some? ==> DiscoverTrace(d, jobId, inspectionOk).writes == []
    ensures ReadState(d).None? ==>
              var d' := ApplyAll(d, DiscoverTrace(d, jobId, inspectionOk).writes);
              && IntactState(d') && AtStatus(d', Discovered) && HistoryOf(d') == [Entry(Discovered, false)]
              && ReadState(d').value.body.linkedJobId == Some(jobId)
              && (inspectionOk ==> ProcurementSnapshot in d' && "lastChainSync" in ReadState(d').value.body.other)
  {
    hide ApplyAll;
    if ReadState(d).None? {
      var created := StateWrite(Attach(EmptyBody(Some(jobId)), false));
      SingleWrite(d, created);
      var d1 := Apply(d, created);
      var synced := SetState(ReadState(d1), WithOther("lastChainSync").(linkedJobId := Some(Some(jobId)))).value;
      var front := [created] + INSPECTION_BUNDLE;
      StateWriteIsRead(d, front, synced);
      assert front + [StateWrite(synced)] == [created] + (INSPECTION_BUNDLE + [StateWrite(synced)]);
      ApplyAllConcat(d, [created], INSPECTION_BUNDLE + [StateWrite(synced)]);
      LastWriteWins(d1, INSPECTION_BUNDLE + [StateWrite(synced)], 0);
    }
  }

  /** A shortlist event that names us marks a tracked procurement as shortlisted, a winner event records whether we were
      selected; nothing else changes, and an untracked procurement is left alone. */
  lemma EventsMark(d: Disk, selected: bool)
    ensures ReadState(d).None? ==> ShortlistTrace(d).writes == [] && WinnerTrace(d, selected).writes == []
    ensures ReadState(d).Some? ==>
              var s, w := ApplyAll(d, ShortlistTrace(d).writes), ApplyAll(d, WinnerTrace(d, selected).writes);
              var b := ReadState(d).value.body;
              && ReadState(s).Some? && ReadState(s).value.body.shortlisted
              && OnlyNoted(b, ReadState(s).value.body.(shortlisted := b.shortlisted))
              && ReadState(w).Some? && ReadState(w).value.body.selected == selected
              && OnlyNoted(b, ReadState(w).value.body.(selected := b.selected))
  {
    hide ApplyAll;
    NoWrites(d);
    if ReadState(d).Some? {
      var shortlisted := StateWrite(SetState(ReadState(d), WithOther("shortlistBlock").(shortlisted := Some(true))).value);
      var winner := StateWrite(SetState(ReadState(d), WithOther("winnerEvidence").(selected := Some(selected))).value);
      assert [] + [shortlisted] == [shortlisted] && [] + [winner] == [winner];
      SingleWrite(d, shortlisted);
      SingleWrite(d, winner);
    }
  }

  // ---- refresh ----

  /** A refresh goes through exactly on a live procurement that was not reorganised, when the chain and the snapshot block
      can be read. */
  lemma RefreshCompletesExactly(d: Disk, e: RefreshEnv)
    requires ReadState(d).Some?
    ensures RefreshTrace(d, e).outcome == Advanced <==>
            !Terminal(ReadState(d).value.body.status) && !e.reorged && e.chain.Some? && e.snapshotOk
  {
    hide SnapshotTrace, ComputeNextAction, DidMissRequiredWindow, Merge;
    if e.reorged {
      RollbackNeverHappens(d, e);
    } else if e.chain.Some? {
      var b := ReadState(d).value.body;
      var advice := ComputeNextAction(b, e.chain.value, e.now);
      SnapshotCompletes([], d, advice.action, e);
      if DidMissRequiredWindow(b.status, advice.phase) {
        MissIsAnAutoEdge(Undefined, b.status, advice.phase);
        var missed := TransitionState(ReadState(d), MissedWindow, WithOther("missedWindowAt")).value;
        SnapshotCompletes([StateWrite(missed)], Apply(d, StateWrite(missed)), advice.action, e);
      }
    }
  }

  lemma SnapshotCompletes(done: seq<Write>, d: Disk, action: Action, e: RefreshEnv)
    ensures SnapshotTrace(done, d, action, e).outcome == if e.snapshotOk then Advanced else HandlerError
  {
    hide ScoringWrites, ApplyAll, Merge;
  }

  /** A refresh that goes through leaves the chain snapshot, the next action and the reconciliation, and ends by recording
      the sync in the state. */
  lemma RefreshLeaves(d: Disk, e: RefreshEnv)
    requires ReadState(d).Some? && RefreshTrace(d, e).outcome == Advanced
    ensures var d' := ApplyAll(d, RefreshTrace(d, e).writes);
            && Note("chain_snapshot.json") in d' && Note("next_action.json") in d' && Note("reconciliation_snapshot.json") in d'
            && ReadState(d').Some? && "lastChainSync" in ReadState(d').value.body.other
  {
    hide SnapshotTrace, ComputeNextAction, DidMissRequiredWindow, Merge, ApplyAll;
    RefreshCompletesExactly(d, e);
    var b := ReadState(d).value.body;
    var advice := ComputeNextAction(b, e.chain.value, e.now);
    if DidMissRequiredWindow(b.status, advice.phase) {
      MissIsAnAutoEdge(Undefined, b.status, advice.phase);
      var missed := TransitionState(ReadState(d), MissedWindow, WithOther("missedWindowAt")).value;
      SnapshotLeaves(d, [StateWrite(missed)], Apply(d, StateWrite(missed)), advice.action, e);
    } else {
      SnapshotLeaves(d, [], d, advice.action, e);
    }
  }

  lemma SnapshotLeaves(d0: Disk, done: seq<Write>, d: Disk, action: Action, e: RefreshEnv)
    requires e.snapshotOk
    ensures var d' := ApplyAll(d0, SnapshotTrace(done, d, action, e).writes);
            && Note("chain_snapshot.json") in d' && Note("next_action.json") in d' && Note("reconciliation_snapshot.json") in d'
            && ReadState(d').Some? && "lastChainSync" in ReadState(d').value.body.other
  {
    hide ScoringWrites, ApplyAll;
    var taken := ApplyAll(d, SNAPSHOTS);
    var scored := if Scores(action) && e.agentKnown then ScoringWrites(taken, action, ScoringPhase(e), e.validator) else [];
    var synced := SetState(ReadState(ApplyAll(taken, scored)), WithOther("lastChainSync")).value;
    var all := done + SNAPSHOTS + scored;
    StateWriteIsRead(d0, all, synced);
    var ws := all + [StateWrite(synced)];
    assert ws[|done|] == SNAPSHOTS[0] && ws[|done| + 1] == SNAPSHOTS[1] && ws[|done| + 2] == SNAPSHOTS[2];
    WrittenFileStays(d0, ws, |done|);
    WrittenFileStays(d0, ws, |done| + 1);
    WrittenFileStays(d0, ws, |done| + 2);
  }

  lemma {:induction false} WrittenFileStays(d: Disk, ws: seq<Write>, k: nat)
    requires k < |ws|
    ensures ws[k].file in ApplyAll(d, ws)
  {
    if k < |ws| - 1 {
      WrittenFileStays(d, ws[..|ws| - 1], k);
    }
  }

  // ---- validator scoring ----

  /** The files of the package of an action, by name. */
  predicate PackageThere(d: Disk, action: Action) {
    && (action == BuildValidatorScoreCommitTx ==>
          && Note("scoring/evidence_bundle.json") in d && Note("scoring/adjudication_result.json") in d
          && Note("scoring/unsigned_score_commit_tx.json") in d && Note("scoring/score_commit_payload.json") in d)
    && (action == BuildValidatorScoreRevealTx ==>
          Note("scoring/unsigned_score_reveal_tx.json") in d && Note("scoring/score_reveal_payload.json") in d)
  }

  /** A scoring run whose gate passed leaves the assignment, the whole package of its phase, and a blocking reason. */
  lemma PackagedRunLeaves(d: Disk, action: Action, complete: bool)
    requires Scoring(d) && Scores(action)
    ensures var d' := ApplyAll(d, ScoringWrites(d, action, ScoringWindow(action), Packaged(complete)));
            && Note("scoring/validator_assignment.json") in d' && PackageThere(d', action)
            && ReadState(d').Some? && "validatorScoringBlockedReason" in ReadState(d').value.body.other
            && ReadState(d').value.body.validatorAssigned
  {
    hide ApplyAll, SetState, ReadState, IntactState, ScoringPackage, PackageThere, AssignedWrites;
    var role := [ASSIGNMENT] + Stored(SetState(ReadState(d), Role(true)));
    RoleIsRecorded(d, true);
    var d1 := ApplyAll(d, role);
    FinishedRunLeaves(d1, action, complete);
    var rest := AssignedWrites(d1, action, ScoringWindow(action), Packaged(complete));
    ApplyAllConcat(d, role, rest);
    WrittenFileStays(d, role + rest, 0);
  }

  lemma FinishedWritesAre(d: Disk, action: Action, complete: bool)
    ensures var package := ScoringPackage(action) + [NoteWrite("reconciliation_snapshot.json")];
            AssignedWrites(d, action, ScoringWindow(action), Packaged(complete))
            == package + PackagedWrites(ApplyAll(d, package), action, complete)
  {
    hide ApplyAll, ScoringPackage, PackagedWrites, ScoringWindow;
  }

  lemma FinishedRunIs(d: Disk, action: Action, complete: bool)
    requires Scoring(d)
    ensures var package := ScoringPackage(action) + [NoteWrite("reconciliation_snapshot.json")];
            && AssignedWrites(d, action, ScoringWindow(action), Packaged(complete)) == package + BlockedWrites(ApplyAll(d, package))
            && ReadState(ApplyAll(d, package)) == ReadState(d)
  {
    hide ApplyAll, ScoringPackage, PackagedWrites, BlockedWrites, AssignedWrites, ScoringWindow, ReadState;
    var package := ScoringPackage(action) + [NoteWrite("reconciliation_snapshot.json")];
    FinishedWritesAre(d, action, complete);
    PackageIsInert(action, 0);
    InertWritesChangeNothing(d, package);
    PackagedIsGood(0, Undefined, ApplyAll(d, package), action, complete);
  }

  lemma FinishedRunLeaves(d: Disk, action: Action, complete: bool)
    requires Scoring(d) && Scores(action)
    ensures var d' := ApplyAll(d, AssignedWrites(d, action, ScoringWindow(action), Packaged(complete)));
            && PackageThere(d', action)
            && ReadState(d').Some? && "validatorScoringBlockedReason" in ReadState(d').value.body.other
            && ReadState(d').value.body.validatorAssigned == ReadState(d).value.body.validatorAssigned
  {
    hide ApplyAll, ReadState, ScoringPackage, PackageThere, AssignedWrites, BlockedWrites;
    var package := ScoringPackage(action) + [NoteWrite("reconciliation_snapshot.json")];
    FinishedRunIs(d, action, complete);
    var rest := BlockedWrites(ApplyAll(d, package));
    BlockedLeaves(ApplyAll(d, package));
    ApplyAllConcat(d, package, rest);
    assert package + rest == ScoringPackage(action) + ([NoteWrite("reconciliation_snapshot.json")] + rest);
    PackageStays(d, action, [NoteWrite("reconciliation_snapshot.json")] + rest);
  }

  lemma PackageStays(d: Disk, action: Action, back: seq<Write>)
    requires Scores(action)
    ensures PackageThere(ApplyAll(d, ScoringPackage(action) + back), action)
  {
    hide ApplyAll, ScoringPackage;
    PackageFilesByName(action);
    var ws := ScoringPackage(action) + back;
    forall k | 0 <= k < |ScoringPackage(action)|
      ensures ScoringPackage(action)[k].file in ApplyAll(d, ws)
    {
      WrittenFileStays(d, ws, k);
    }
  }

  lemma PackageFilesByName(action: Action)
    requires Scores(action)
    ensures action == BuildValidatorScoreCommitTx ==>
              var p := ScoringPackage(action);
              && |p| == 4 && p[0].file == Note("scoring/evidence_bundle.json") && p[1].file == Note("scoring/adjudication_result.json")
              && p[2].file == Note("scoring/unsigned_score_commit_tx.json") && p[3].file == Note("scoring/score_commit_payload.json")
    ensures action == BuildValidatorScoreRevealTx ==>
              var p := ScoringPackage(action);
              && |p| == 2 && p[0].file == Note("scoring/unsigned_score_reveal_tx.json")
              && p[1].file == Note("scoring/score_reveal_payload.json")
  {
  }

  lemma BlockedLeaves(d: Disk)
    requires IntactState(d)
    ensures var d' := ApplyAll(d, BlockedWrites(d));
            && ReadState(d').Some? && "validatorScoringBlockedReason" in ReadState(d').value.body.other
            && ReadState(d').value.body.validatorAssigned == ReadState(d).value.body.validatorAssigned
  {
    hide ApplyAll;
    SingleWrite(d, StateWrite(SetState(ReadState(d), WithOther("validatorScoringBlockedReason")).value));
  }

  /** A scoring run that could read its assignment records it, whichever it is. */
  lemma RoleIsRecorded(d: Disk, granted: bool)
    requires Scoring(d)
    ensures var d' := ApplyAll(d, [ASSIGNMENT] + Stored(SetState(ReadState(d), Role(granted))));
            Scoring(d') && ReadState(d').value.body.validatorAssigned == granted
  {
    hide ApplyAll;
    StateWriteIsRead(d, [ASSIGNMENT], SetState(ReadState(d), Role(granted)).value);
  }
}

/** What the monitor does to one tracked procurement: discovery, event patches and the periodic refresh. */
module MonitorRefresh {
  import opened Basics
  import opened PhaseModel
  import opened ProcState
  import opened NextAction
  import opened Handlers
  import opened Orchestrator

  // ---- discovery of this procurement ----

  function DiscoverTrace(d: Disk, jobId: string, inspectionOk: bool): Trace {
    if ReadState(d).Some? then Trace([], Noop)
    else
      var created := Attach(EmptyBody(Some(jobId)), false);
      if !inspectionOk then Trace([StateWrite(created)], Advanced)
      else ThenSet([StateWrite(created)] + INSPECTION_BUNDLE, Apply(d, StateWrite(created)),
                   WithOther("lastChainSync").(linkedJobId := Some(Some(jobId))))
  }

  method Discover(dir: ProcDir, jobId: string, inspectionOk: bool) returns (o: Outcome)
    requires dir.Valid()
    modifies dir
    ensures Wrote(dir, old(dir.disk), old(dir.log), DiscoverTrace(old(dir.disk), jobId, inspectionOk).writes)
    ensures o == DiscoverTrace(old(dir.disk), jobId, inspectionOk).outcome
  {
    ghost var t := DiscoverTrace(dir.disk, jobId, inspectionOk);
    var existing := dir.GetProcState();
    if existing.Some? {
      LogDeterminesDisk(dir, old(dir.disk), old(dir.log), t.writes);
      return Noop;
    }
    var created := dir.GetOrCreateProcState(Some(jobId));
    if !inspectionOk {
      LogDeterminesDisk(dir, old(dir.disk), old(dir.log), t.writes);
      return Advanced;
    }
    WriteInspectionBundle(dir);
    var r := dir.SetProcState(WithOther("lastChainSync").(linkedJobId := Some(Some(jobId))));
    LogDeterminesDisk(dir, old(dir.disk), old(dir.log), t.writes);
    return if r.Ok? then Advanced else HandlerError;
  }

  // ---- events ----

  /** A ShortlistFinalized event that names us. */
  function ShortlistTrace(d: Disk): Trace {
    match ReadState(d)
    case None => Trace([], Skip)
    case Some(r) =>
      if r.body.shortlisted then Trace([], Noop)
      else ThenSet([], d, WithOther("shortlistBlock").(shortlisted := Some(true)))
  }

  /** A WinnerDesignated event, after reconciliation decided whether the winner is us. */
  function WinnerTrace(d: Disk, selected: bool): Trace {
    if ReadState(d).None? then Trace([], Skip)
    else ThenSet([], d, WithOther("winnerEvidence").(selected := Some(selected)))
  }

  // ---- refresh ----

  /** What one run of the validator scoring meets outside the directory. */
  datatype ScoringRun =
    | AssignmentFails              // the assignment cannot be read
    | NotAssigned
    | EvidenceFails                // the files to score, or the committed score to reveal, cannot be read
    | PackagingFails(written: nat) // an error after so many files of the package, a refusing gate among them
    | Packaged(complete: bool)     // the gate passed; no file required of the package or of the status is missing

  datatype RefreshEnv = RefreshEnv(
    now: int, chain: Option<Deadlines>, reorged: bool, snapshotOk: bool, agentKnown: bool,
    scoreNow: int,                 // clock read by the scoring run
    validator: ScoringRun)

  function RollbackTarget(s: Status): Option<Status> {
    match s
    case CommitSubmitted => Some(CommitReady)
    case RevealSubmitted => Some(RevealReady)
    case FinalistAcceptSubmitted => Some(FinalistAcceptReady)
    case TrialSubmitted => Some(TrialReady)
    case CompletionSubmitted => Some(CompletionReady)
    case _ => None
  }

  function RefreshTrace(d: Disk, e: RefreshEnv): Trace {
    match ReadState(d)
    case None => Trace([], Skip)
    case Some(r) =>
      if Terminal(r.body.status) then Trace([], Skip)
      else if e.reorged then
        match RollbackTarget(r.body.status)
        case None => Trace([], Noop)
        case Some(s) => ThenSet([], d, WithOther("reorgRolledBackAt").(status := Some(s)))
      else if e.chain.None? then Trace([], HandlerError)
      else
        var advice := ComputeNextAction(r.body, e.chain.value, e.now);
        if DidMissRequiredWindow(r.body.status, advice.phase) then
          match TransitionState(Some(r), MissedWindow, WithOther("missedWindowAt"))
          case Err(_) => Trace([], HandlerError)
          case Ok(missed) => SnapshotTrace([StateWrite(missed)], Apply(d, StateWrite(missed)), advice.action, e)
        else SnapshotTrace([], d, advice.action, e)
  }

  const SNAPSHOTS := [NoteWrite("chain_snapshot.json"), NoteWrite("next_action.json"), NoteWrite("reconciliation_snapshot.json")]

  function SnapshotTrace(done: seq<Write>, d: Disk, action: Action, e: RefreshEnv): Trace {
    if !e.snapshotOk then Trace(done, HandlerError)
    else
      var taken := ApplyAll(d, SNAPSHOTS);
      var scored := if Scores(action) && e.agentKnown then ScoringWrites(taken, action, ScoringPhase(e), e.validator) else [];
      ThenSet(done + SNAPSHOTS + scored, ApplyAll(taken, scored), WithOther("lastChainSync"))
  }

  // ---- validator scoring: what one run writes until it ends or throws; the refresh catches the error ----

  predicate Scores(a: Action) {
    a in {BuildValidatorScoreCommitTx, BuildValidatorScoreRevealTx}
  }

  const ASSIGNMENT := NoteWrite("scoring/validator_assignment.json")

  function ScoringPackage(a: Action): seq<Write> {
    if a == BuildValidatorScoreRevealTx
    then [NoteWrite("scoring/unsigned_score_reveal_tx.json"), NoteWrite("scoring/score_reveal_payload.json")]
    else [NoteWrite("scoring/evidence_bundle.json"), NoteWrite("scoring/adjudication_result.json"),
          NoteWrite("scoring/unsigned_score_commit_tx.json"), NoteWrite("scoring/score_commit_payload.json")]
  }

  function ScoringWindow(a: Action): ChainPhase {
    if a == BuildValidatorScoreRevealTx then ScoreReveal else ScoreCommit
  }

  /** The phase the scoring run sees: the deadlines just stored in the snapshot, at its own clock. */
  function ScoringPhase(e: RefreshEnv): ChainPhase {
    if e.chain.None? then Closed else DeriveChainPhase(e.chain.value, e.scoreNow)
  }

  function ScoringTarget(a: Action): Status {
    if a == BuildValidatorScoreRevealTx then ValidatorScoreRevealReady else ValidatorScoreCommitReady
  }

  function Role(granted: bool): Patch {
    WithOther("validatorRole").(validatorAssigned := Some(granted))
  }

  /** The write of a state operation; a refused one writes nothing. */
  function Stored(r: Result<Record, StateError>): seq<Write> {
    if r.Ok? then [StateWrite(r.value)] else []
  }

  function ScoringWrites(d: Disk, action: Action, phase: ChainPhase, run: ScoringRun): seq<Write> {
    if run.AssignmentFails? then []
    else
      var role := [ASSIGNMENT] + Stored(SetState(ReadState(d), Role(!run.NotAssigned?)));
      role + AssignedWrites(ApplyAll(d, role), action, phase, run)
  }

  function AssignedWrites(d: Disk, action: Action, phase: ChainPhase, run: ScoringRun): seq<Write> {
    if run.AssignmentFails? || run.NotAssigned? || run.EvidenceFails? then []
    else if phase != ScoringWindow(action) then
      if Order(phase) > Order(ScoringWindow(action)) then MissedWrites(d) else BlockedWrites(d)
    else
      match run
      case PackagingFails(written) => Upto(ScoringPackage(action), written)
      case Packaged(complete) =>
        var package := ScoringPackage(action) + [NoteWrite("reconciliation_snapshot.json")];
        package + PackagedWrites(ApplyAll(d, package), action, complete)
  }

  function BlockedWrites(d: Disk): seq<Write> {
    Stored(SetState(ReadState(d), WithOther("validatorScoringBlockedReason")))
  }

  function MissedWrites(d: Disk): seq<Write> {
    if ReadState(d).Some? && ReadState(d).value.body.status == MissedWindow then BlockedWrites(d)
    else
      match TransitionState(ReadState(d), MissedWindow, WithOther("missedWindowAt"))
      case Err(_) => []
      case Ok(r) => [StateWrite(r)] + BlockedWrites(Apply(d, StateWrite(r)))
  }

  /** The snapshot calls a handoff complete only in a status that is already READY. */
  function PackagedWrites(d: Disk, action: Action, complete: bool): seq<Write> {
    if complete && ReadState(d).Some? && Ready(ReadState(d).value.body.status)
    then Stored(TransitionState(ReadState(d), ScoringTarget(action), WithOther("validatorScore")))
    else BlockedWrites(d)
  }

  method RefreshProcurement(dir: ProcDir, e: RefreshEnv) returns (o: Outcome)
    requires dir.Valid()
    modifies dir
    ensures Wrote(dir, old(dir.disk), old(dir.log), RefreshTrace(old(dir.disk), e).writes)
    ensures o == RefreshTrace(old(dir.disk), e).outcome
  {
    hide SnapshotTrace, SetState, TransitionState, ApplyAll, ComputeNextAction, DidMissRequiredWindow, RollbackTarget;
    ghost var t := RefreshTrace(dir.disk, e);
    var state := ReadState(dir.disk);
    if state.None? || Terminal(state.value.body.status) {
      LogDeterminesDisk(dir, old(dir.disk), old(dir.log), t.writes);
      return Skip;
    }
    var body := state.value.body;
    if e.reorged {
      var rollbackTo := RollbackTarget(body.status);
      if rollbackTo.None? {
        LogDeterminesDisk(dir, old(dir.disk), old(dir.log), t.writes);
        return Noop;
      }
      var rolled := dir.SetProcState(WithOther("reorgRolledBackAt").(status := Some(rollbackTo.value)));
      LogDeterminesDisk(dir, old(dir.disk), old(dir.log), t.writes);
      return if rolled.Ok? then Advanced else HandlerError;
    }
    if e.chain.None? {
      LogDeterminesDisk(dir, old(dir.disk), old(dir.log), t.writes);
      return HandlerError;
    }
    var advice := ComputeNextAction(body, e.chain.value, e.now);
    if DidMissRequiredWindow(body.status, advice.phase) {
      var missed := dir.TransitionProcStatus(MissedWindow, WithOther("missedWindowAt"));
      if missed.Err? {
        LogDeterminesDisk(dir, old(dir.disk), old(dir.log), t.writes);
        return HandlerError;
      }
      o := TakeSnapshot(dir, advice.action, e, old(dir.log), [StateWrite(missed.value)]);
    } else {
      o := TakeSnapshot(dir, advice.action, e, old(dir.log), []);
    }
    LogDeterminesDisk(dir, old(dir.disk), old(dir.log), t.writes);
  }

  method TakeSnapshot(dir: ProcDir, action: Action, e: RefreshEnv, ghost log0: seq<Write>, ghost done: seq<Write>) returns (o: Outcome)
    requires dir.Valid() && dir.log == log0 + done
    modifies dir
    ensures dir.Valid()
    ensures dir.log == log0 + SnapshotTrace(done, old(dir.disk), action, e).writes
    ensures o == SnapshotTrace(done, old(dir.disk), action, e).outcome
  {
    hide SetState, ApplyAll, ReadState, ScoringWrites;
    if !e.snapshotOk {
      return HandlerError;
    }
    ghost var scored: seq<Write> := [];
    WriteSnapshots(dir);
    assert ApplyAll(dir.disk, []) == dir.disk by { NoWrites(dir.disk); }
    if Scores(action) && e.agentKnown {
      scored := ScoringWrites(dir.disk, action, ScoringPhase(e), e.validator);
      RunValidatorScoring(dir, action, ScoringPhase(e), e.validator);
    }
    assert dir.log == log0 + (done + SNAPSHOTS + scored);
    var r := dir.SetProcState(WithOther("lastChainSync"));
    return if r.Ok? then Advanced else HandlerError;
  }

  method WriteSnapshots(dir: ProcDir)
    requires dir.Valid()
    modifies dir
    ensures Wrote(dir, old(dir.disk), old(dir.log), SNAPSHOTS)
  {
    dir.Put(Note("chain_snapshot.json"), Text);
    dir.Put(Note("next_action.json"), Text);
    dir.Put(Note("reconciliation_snapshot.json"), Text);
    LogDeterminesDisk(dir, old(dir.disk), old(dir.log), SNAPSHOTS);
  }

  /** One scoring run, up to its end or its error. */
  method RunValidatorScoring(dir: ProcDir, action: Action, phase: ChainPhase, run: ScoringRun)
    requires dir.Valid()
    modifies dir
    ensures Wrote(dir, old(dir.disk), old(dir.log), ScoringWrites(old(dir.disk), action, phase, run))
  {
    hide SetState, ApplyAll, AssignedWrites;
    ghost var ws := ScoringWrites(dir.disk, action, phase, run);
    if !run.AssignmentFails? {
      dir.Put(Note("scoring/validator_assignment.json"), Text);
      var role := dir.SetProcState(Role(!run.NotAssigned?));
      ghost var written := [ASSIGNMENT] + Stored(role);
      assert dir.log == old(dir.log) + written;
      LogDeterminesDisk(dir, old(dir.disk), old(dir.log), written);
      ScoreAssigned(dir, action, phase, run);
    }
    LogDeterminesDisk(dir, old(dir.disk), old(dir.log), ws);
  }

  method ScoreAssigned(dir: ProcDir, action: Action, phase: ChainPhase, run: ScoringRun)
    requires dir.Valid()
    modifies dir
    ensures Wrote(dir, old(dir.disk), old(dir.log), AssignedWrites(old(dir.disk), action, phase, run))
  {
    hide ApplyAll, BlockedWrites, MissedWrites, PackagedWrites, ScoringPackage;
    ghost var ws := AssignedWrites(dir.disk, action, phase, run);
    if run.AssignmentFails? || run.NotAssigned? || run.EvidenceFails? {
    } else if phase != ScoringWindow(action) {
      if Order(phase) > Order(ScoringWindow(action)) {
        FailClosedWindow(dir);
      } else {
        BlockScoring(dir);
      }
    } else if run.PackagingFails? {
      WriteScoringPackage(dir, action, run.written);
    } else {
      WriteScoringPackage(dir, action, |ScoringPackage(action)|);
      dir.Put(Note("reconciliation_snapshot.json"), Text);
      ghost var package := ScoringPackage(action) + [NoteWrite("reconciliation_snapshot.json")];
      assert dir.log == old(dir.log) + package;
      LogDeterminesDisk(dir, old(dir.disk), old(dir.log), package);
      FinishPackage(dir, action, run.complete);
    }
    LogDeterminesDisk(dir, old(dir.disk), old(dir.log), ws);
  }

  /** The files of the package in order, up to the error if there is one. */
  method WriteScoringPackage(dir: ProcDir, action: Action, written: nat)
    requires dir.Valid()
    modifies dir
    ensures Wrote(dir, old(dir.disk), old(dir.log), Upto(ScoringPackage(action), written))
  {
    hide ApplyAll, ReadState;
    ghost var ws := Upto(ScoringPackage(action), written);
    if action == BuildValidatorScoreRevealTx {
      PutBefore(dir, 0, written, "scoring/unsigned_score_reveal_tx.json");
      PutBefore(dir, 1, written, "scoring/score_reveal_payload.json");
    } else {
      PutBefore(dir, 0, written, "scoring/evidence_bundle.json");
      PutBefore(dir, 1, written, "scoring/adjudication_result.json");
      PutBefore(dir, 2, written, "scoring/unsigned_score_commit_tx.json");
      PutBefore(dir, 3, written, "scoring/score_commit_payload.json");
    }
    assert dir.log == old(dir.log) + ws;
    LogDeterminesDisk(dir, old(dir.disk), old(dir.log), ws);
  }

  method PutBefore(dir: ProcDir, k: nat, end: nat, path: string)
    requires dir.Valid()
    modifies dir
    ensures dir.Valid() && dir.log == old(dir.log) + if k < end then [NoteWrite(path)] else []
  {
    if k < end {
      dir.Put(Note(path), Text);
    }
  }

  method BlockScoring(dir: ProcDir)
    requires dir.Valid()
    modifies dir
    ensures Wrote(dir, old(dir.disk), old(dir.log), BlockedWrites(old(dir.disk)))
  {
    hide SetState, ApplyAll;
    ghost var ws := BlockedWrites(dir.disk);
    var r := dir.SetProcState(WithOther("validatorScoringBlockedReason"));
    LogDeterminesDisk(dir, old(dir.disk), old(dir.log), ws);
  }

  method FailClosedWindow(dir: ProcDir)
    requires dir.Valid()
    modifies dir
    ensures Wrote(dir, old(dir.disk), old(dir.log), MissedWrites(old(dir.disk)))
  {
    hide TransitionState, ApplyAll, BlockedWrites;
    ghost var ws := MissedWrites(dir.disk);
    var state := dir.GetProcState();
    if state.None? || state.value.body.status != MissedWindow {
      var missed := dir.TransitionProcStatus(MissedWindow, WithOther("missedWindowAt"));
      if missed.Err? {
        LogDeterminesDisk(dir, old(dir.disk), old(dir.log), ws);
        return;
      }
    }
    BlockScoring(dir);
    LogDeterminesDisk(dir, old(dir.disk), old(dir.log), ws);
  }

  method FinishPackage(dir: ProcDir, action: Action, complete: bool)
    requires dir.Valid()
    modifies dir
    ensures Wrote(dir, old(dir.disk), old(dir.log), PackagedWrites(old(dir.disk), action, complete))
  {
    hide TransitionState, ApplyAll, BlockedWrites;
    ghost var ws := PackagedWrites(dir.disk, action, complete);
    var state := dir.GetProcState();
    if complete && state.Some? && Ready(state.value.body.status) {
      var r := dir.TransitionProcStatus(ScoringTarget(action), WithOther("validatorScore"));
    } else {
      BlockScoring(dir);
    }
    LogDeterminesDisk(dir, old(dir.disk), old(dir.log), ws);
  }

  /** The rollback of a submitted status, to the READY status it came from, is always refused by the transition table, so
      the refresh of a reorganised procurement writes nothing at all; it fails in exactly the five submitted statuses
      outside the validator role. */
  lemma RollbackNeverHappens(d: Disk, e: RefreshEnv)
    requires e.reorged
    ensures RefreshTrace(d, e).writes == []
    ensures RefreshTrace(d, e).outcome == HandlerError <==>
            ReadState(d).Some? && Submitted(ReadState(d).value.body.status) && !ValidatorStatus(ReadState(d).value.body.status)
    ensures forall s :: RollbackTarget(s).Some? ==> Ready(RollbackTarget(s).value) && ValidTransition(RollbackTarget(s).value, s)
  {
    hide Merge;
  }
}

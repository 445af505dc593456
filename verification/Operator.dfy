/** The two operator commands: approve an action (build its package) and mark an external submission. */
module Operator {
  import opened Basics
  import opened PhaseModel
  import opened Commitments
  import opened ProcState
  import opened Handlers
  import opened Orchestrator

  datatype ActionName = CommitAction | RevealAction | AcceptFinalistAction | SubmitTrialAction

  function ReadyStatus(a: ActionName): Status {
    match a
    case CommitAction => CommitReady
    case RevealAction => RevealReady
    case AcceptFinalistAction => FinalistAcceptReady
    case SubmitTrialAction => TrialReady
  }

  /** Statuses the approval command accepts without --force. */
  function ApprovableFrom(a: ActionName): set<Status> {
    match a
    case CommitAction => {ApplicationDrafted}
    case RevealAction => {CommitSubmitted}
    case AcceptFinalistAction => {RevealSubmitted, Shortlisted}
    case SubmitTrialAction => {FinalistAcceptReady, FinalistAcceptSubmitted, TrialInProgress}
  }

  function SubmittedStatus(a: ActionName): Status {
    match a
    case CommitAction => CommitSubmitted
    case RevealAction => RevealSubmitted
    case AcceptFinalistAction => FinalistAcceptSubmitted
    case SubmitTrialAction => TrialSubmitted
  }

  /** The package the approval command builds from the files, if they hold everything it needs. */
  function Package(d: Disk, a: ActionName): (tx: Option<Write>)
    ensures tx.Some? ==> tx.value.file in {CommitTx, RevealTx, FinalistTx, TrialTx}
  {
    match a
    case CommitAction =>
      (match ReadMaterial(d)
       case None => None
       case Some(m) => if Complete(m) then Some(Write(CommitTx, CommitTxC(m.hash))) else None)
    case RevealAction =>
      (match ReadMaterial(d)
       case None => None
       case Some(m) =>
         if Complete(m) && Payload in d && d[Payload].PayloadC? && d[Payload].uri != []
         then Some(Write(RevealTx, RevealTxC(d[Payload].uri, m.salt))) else None)
    case AcceptFinalistAction => Some(Write(FinalistTx, Text))
    case SubmitTrialAction =>
      var uri := OrElse(UriIn(d, PublicationRecord), OrElse(UriIn(d, TrialPayload), []));
      if uri != [] then Some(Write(TrialTx, TrialUriC(uri))) else None
  }

  /** The nonempty URI a file records. */
  function UriIn(d: Disk, f: File): Option<Uri> {
    if f in d && d[f].TrialUriC? && d[f].uri != [] then Some(d[f].uri) else None
  }

  /** The command insists on a subdomain and a nonempty proof inside commitment_material.json. */
  predicate Complete(m: Material) {
    m.subdomain.Some? && m.subdomain.value != "" && m.proof.Some? && m.proof.value != []
  }

  /** `encodingOk` stands for everything that can fail before the first write once the fields are there: a malformed hash
      or salt, a missing brief, the encoding of the call. */
  function ApproveTrace(d: Disk, a: ActionName, force: bool, encodingOk: bool): Trace {
    match OnRead(ReadState(d))
    case None => Trace([], HandlerError)
    case Some(r) =>
      if r.body.status == ReadyStatus(a) && !force then Trace([], Noop)
      else if !force && r.body.status !in ApprovableFrom(a) then Trace([], HandlerError)
      else
        match Package(d, a)
        case None => Trace([], HandlerError)
        case Some(tx) =>
          if !encodingOk then Trace([], HandlerError) else ApprovalTrace(d, a, tx)
  }

  function ApprovalTrace(d: Disk, a: ActionName, tx: Write): Trace {
    ThenSet([tx, NoteWrite("prime_action_review_packet.json"), tx], d, WithOther("txHandoffs").(status := Some(ReadyStatus(a))))
  }

  /** The submitted transaction as the operator typed it: 0x and at least one letter or digit. */
  predicate TxReference(t: string) {
    && |t| > 2 && t[0] == '0' && t[1] == 'x'
    && forall k :: 2 <= k < |t| ==> '0' <= t[k] <= '9' || 'a' <= t[k] <= 'z' || 'A' <= t[k] <= 'Z'
  }

  function MarkTrace(d: Disk, a: ActionName, tx: string, force: bool): Trace {
    match OnRead(ReadState(d))
    case None => Trace([], HandlerError)
    case Some(r) =>
      if !TxReference(tx) then Trace([], HandlerError)
      else if r.body.status != ReadyStatus(a) && !force then Trace([], HandlerError)
      else ThenSet([NoteWrite("external_receipt.json")], d, NO_PATCH.(status := Some(SubmittedStatus(a))))
  }

  // ---- what the commands leave behind ----

  /** The status is `s`, entered by a legal move unless it was that before; nothing else of the history changes. */
  predicate Entered(before: Body, after: Body, s: Status) {
    && after.status == s
    && (before.status == s ==> after.history == before.history)
    && (before.status != s ==> ValidTransition(before.status, s) && after.history == before.history + [Entry(s, false)])
  }

  /** The fields neither command touches. */
  predicate OtherFieldsKept(before: Body, after: Body) {
    && after.linkedJobId == before.linkedJobId && after.applicationURI == before.applicationURI
    && after.commitmentSalt == before.commitmentSalt && after.commitmentHash == before.commitmentHash
    && after.fitEvaluated == before.fitEvaluated && after.shortlisted == before.shortlisted
    && after.selected == before.selected && after.validatorAssigned == before.validatorAssigned
  }

  /** A marked action: its own SUBMITTED status, and a receipt. */
  predicate MarkedAs(d: Disk, a: ActionName, d': Disk) {
    && ReadState(d).Some? && ReadState(d').Some? && Note("external_receipt.json") in d'
    && var before, after := ReadState(d).value.body, ReadState(d').value.body;
       && Submitted(after.status) && OtherFieldsKept(before, after)
       && (a == CommitAction ==> Entered(before, after, CommitSubmitted))
       && (a == RevealAction ==> Entered(before, after, RevealSubmitted))
       && (a == AcceptFinalistAction ==> Entered(before, after, FinalistAcceptSubmitted))
       && (a == SubmitTrialAction ==> Entered(before, after, TrialSubmitted))
  }

  /** An approved action: its own READY status, and a package of the recorded values. */
  predicate ApprovedAs(d: Disk, a: ActionName, d': Disk) {
    && ReadState(d).Some? && ReadState(d').Some? && Note("prime_action_review_packet.json") in d'
    && var before, after := ReadState(d).value.body, ReadState(d').value.body;
       && Ready(after.status) && OtherFieldsKept(before, after) && "txHandoffs" in after.other
       && (a == CommitAction ==>
             && Entered(before, after, CommitReady)
             && ReadMaterial(d).Some? && CommitTx in d' && d'[CommitTx] == CommitTxC(ReadMaterial(d).value.hash))
       && (a == RevealAction ==>
             && Entered(before, after, RevealReady)
             && ReadMaterial(d).Some? && Payload in d && d[Payload].PayloadC?
             && RevealTx in d' && d'[RevealTx] == RevealTxC(d[Payload].uri, ReadMaterial(d).value.salt))
       && (a == AcceptFinalistAction ==> Entered(before, after, FinalistAcceptReady) && FinalistTx in d')
       && (a == SubmitTrialAction ==>
             && Entered(before, after, TrialReady)
             && TrialTx in d' && d'[TrialTx].TrialUriC? && d'[TrialTx].uri != []
             && ((PublicationRecord in d && d[PublicationRecord] == d'[TrialTx]) || (TrialPayload in d && d[TrialPayload] == d'[TrialTx])))
  }

  /** A status write at the end of a list of other files. */
  lemma StatusEntered(d: Disk, done: seq<Write>, p: Patch, s: Status)
    requires ReadState(d).Some? && p.status == Some(s) && ThenSet(done, d, p).outcome == Advanced
    requires p == WithOther("txHandoffs").(status := Some(s)) || p == NO_PATCH.(status := Some(s))
    ensures var ws := ThenSet(done, d, p).writes;
            && |ws| == |done| + 1 && ws[|done|].file == StateJson && ApplyAll(d, ws) == Apply(ApplyAll(d, done), ws[|done|])
            && ReadState(ApplyAll(d, ws)).Some?
            && Entered(ReadState(d).value.body, ReadState(ApplyAll(d, ws)).value.body, s)
            && OtherFieldsKept(ReadState(d).value.body, ReadState(ApplyAll(d, ws)).value.body)
            && forall key :: key in p.other ==> key in ReadState(ApplyAll(d, ws)).value.body.other
  {
    hide ValidTransition;
    var ws := ThenSet(done, d, p).writes;
    assert ws[..|ws| - 1] == done;
  }

  /** Marking, forced or not, enters the SUBMITTED status of the action and no other. */
  lemma MarkedIsSubmitted(d: Disk, a: ActionName, tx: string, force: bool)
    requires MarkTrace(d, a, tx, force).outcome == Advanced
    ensures MarkedAs(d, a, ApplyAll(d, MarkTrace(d, a, tx, force).writes))
  {
    hide ApplyAll, SetState, Entered, OtherFieldsKept, TxReference;
    var receipt := [NoteWrite("external_receipt.json")];
    StatusEntered(d, receipt, NO_PATCH.(status := Some(SubmittedStatus(a))), SubmittedStatus(a));
    OneWrite(d, receipt[0]);
    SubmittedByName(d, a, ApplyAll(d, MarkTrace(d, a, tx, force).writes));
  }

  lemma OneWrite(d: Disk, w: Write)
    ensures ApplyAll(d, [w]) == Apply(d, w)
  {
    assert [w][..0] == [];
  }

  lemma SubmittedByName(d: Disk, a: ActionName, d': Disk)
    requires ReadState(d).Some? && ReadState(d').Some?
    requires Entered(ReadState(d).value.body, ReadState(d').value.body, SubmittedStatus(a))
    ensures Submitted(ReadState(d').value.body.status)
    ensures a == CommitAction ==> Entered(ReadState(d).value.body, ReadState(d').value.body, CommitSubmitted)
    ensures a == RevealAction ==> Entered(ReadState(d).value.body, ReadState(d').value.body, RevealSubmitted)
    ensures a == AcceptFinalistAction ==> Entered(ReadState(d).value.body, ReadState(d').value.body, FinalistAcceptSubmitted)
    ensures a == SubmitTrialAction ==> Entered(ReadState(d).value.body, ReadState(d').value.body, TrialSubmitted)
  {
  }

  lemma PackageFiles(d: Disk, tx: Write)
    requires tx.file in {CommitTx, RevealTx, FinalistTx, TrialTx}
    ensures var d' := ApplyAll(d, [tx, NoteWrite("prime_action_review_packet.json"), tx]);
            && tx.file in d' && d'[tx.file] == tx.content && Note("prime_action_review_packet.json") in d'
  {
    var ws := [tx, NoteWrite("prime_action_review_packet.json"), tx];
    assert ws[..2] == [tx, NoteWrite("prime_action_review_packet.json")];
    assert ws[..2][..1] == [tx];
  }

  /** Approval, forced or not, enters the READY status of the action and packages what the files record. */
  lemma ApprovedIsReady(d: Disk, a: ActionName, force: bool, encodingOk: bool)
    requires ApproveTrace(d, a, force, encodingOk).outcome == Advanced
    ensures ApprovedAs(d, a, ApplyAll(d, ApproveTrace(d, a, force, encodingOk).writes))
  {
    hide ApplyAll, SetState, Entered, OtherFieldsKept, Package, ApprovableFrom;
    var tx := Package(d, a).value;
    var done := [tx, NoteWrite("prime_action_review_packet.json"), tx];
    StatusEntered(d, done, WithOther("txHandoffs").(status := Some(ReadyStatus(a))), ReadyStatus(a));
    PackageFiles(d, tx);
    var d' := ApplyAll(d, ApproveTrace(d, a, force, encodingOk).writes);
    assert tx.file in d' && d'[tx.file] == tx.content;
    PackagedByName(d, a);
    ReadyByName(d, a, d');
  }

  lemma ReadyByName(d: Disk, a: ActionName, d': Disk)
    requires ReadState(d).Some? && ReadState(d').Some?
    requires Entered(ReadState(d).value.body, ReadState(d').value.body, ReadyStatus(a))
    ensures Ready(ReadState(d').value.body.status)
    ensures a == CommitAction ==> Entered(ReadState(d).value.body, ReadState(d').value.body, CommitReady)
    ensures a == RevealAction ==> Entered(ReadState(d).value.body, ReadState(d').value.body, RevealReady)
    ensures a == AcceptFinalistAction ==> Entered(ReadState(d).value.body, ReadState(d').value.body, FinalistAcceptReady)
    ensures a == SubmitTrialAction ==> Entered(ReadState(d).value.body, ReadState(d').value.body, TrialReady)
  {
  }

  lemma PackagedByName(d: Disk, a: ActionName)
    requires Package(d, a).Some?
    ensures var tx := Package(d, a).value;
            && (a == CommitAction ==> ReadMaterial(d).Some? && tx == Write(CommitTx, CommitTxC(ReadMaterial(d).value.hash)))
            && (a == RevealAction ==>
                  ReadMaterial(d).Some? && Payload in d && d[Payload].PayloadC?
                  && tx == Write(RevealTx, RevealTxC(d[Payload].uri, ReadMaterial(d).value.salt)))
            && (a == AcceptFinalistAction ==> tx.file == FinalistTx)
            && (a == SubmitTrialAction ==>
                  tx.file == TrialTx && tx.content.TrialUriC? && tx.content.uri != []
                  && ((PublicationRecord in d && d[PublicationRecord] == tx.content) || (TrialPayload in d && d[TrialPayload] == tx.content)))
  {
  }

  /** The fields of the files an approval insists on. */
  predicate FieldsPresent(d: Disk, a: ActionName) {
    && (a == CommitAction || a == RevealAction ==> ReadMaterial(d).Some? && Complete(ReadMaterial(d).value))
    && (a == RevealAction ==> Payload in d && d[Payload].PayloadC? && d[Payload].uri != [])
    && (a == SubmitTrialAction ==> UriIn(d, PublicationRecord).Some? || UriIn(d, TrialPayload).Some?)
  }

  /** Without --force an approval goes through if and only if the status is one that leads to the READY status of the
      action by a legal move the command allows, and the fields and the encoding are there. */
  lemma ApprovalSucceedsExactly(d: Disk, a: ActionName, encodingOk: bool)
    requires ReadState(d).Some?
    ensures var s := ReadState(d).value.body.status;
            ApproveTrace(d, a, false, encodingOk).outcome == Advanced <==>
              && FieldsPresent(d, a) && encodingOk
              && (a == CommitAction ==> s == ApplicationDrafted)
              && (a == RevealAction ==> s == CommitSubmitted)
              && (a == AcceptFinalistAction ==> s == Shortlisted)
              && (a == SubmitTrialAction ==> s in {FinalistAcceptReady, TrialInProgress})
  {
    hide Merge, ReadMaterial;
    PackageExactly(d, a);
    hide Package, Complete, FieldsPresent;
    var s := ReadState(d).value.body.status;
    if s in ApprovableFrom(a) {
      TwoApprovalsAreIllegal(a, s);
    }
  }

  lemma PackageExactly(d: Disk, a: ActionName)
    ensures Package(d, a).Some? <==> FieldsPresent(d, a)
  {
  }

  // ---- the commands ----

  method ApprovePrimeAction(dir: ProcDir, a: ActionName, force: bool, encodingOk: bool) returns (o: Outcome)
    requires dir.Valid()
    modifies dir
    ensures Wrote(dir, old(dir.disk), old(dir.log), ApproveTrace(old(dir.disk), a, force, encodingOk).writes)
    ensures o == ApproveTrace(old(dir.disk), a, force, encodingOk).outcome
    ensures o == Advanced ==> ApprovedAs(old(dir.disk), a, dir.disk)
  {
    hide ApprovalTrace, ApplyAll, ReadState, ReadyStatus, ApprovableFrom, Package, ApprovedAs;
    ghost var t := ApproveTrace(dir.disk, a, force, encodingOk);
    if t.outcome == Advanced {
      ApprovedIsReady(dir.disk, a, force, encodingOk);
    }
    var state := dir.GetProcState();
    if state.None? {
      LogDeterminesDisk(dir, old(dir.disk), old(dir.log), t.writes);
      return HandlerError;
    }
    if state.value.body.status == ReadyStatus(a) && !force {
      LogDeterminesDisk(dir, old(dir.disk), old(dir.log), t.writes);
      return Noop;
    }
    var tx := Package(dir.disk, a);
    if (!force && state.value.body.status !in ApprovableFrom(a)) || tx.None? || !encodingOk {
      LogDeterminesDisk(dir, old(dir.disk), old(dir.log), t.writes);
      return HandlerError;
    }
    o := WriteApproval(dir, a, tx.value);
  }

  /** Package, review packet, package again, status. */
  method WriteApproval(dir: ProcDir, a: ActionName, tx: Write) returns (o: Outcome)
    requires dir.Valid() && tx.file != StateJson
    modifies dir
    ensures var t := ApprovalTrace(old(dir.disk), a, tx);
            Wrote(dir, old(dir.disk), old(dir.log), t.writes) && o == t.outcome
  {
    hide SetState, ApplyAll, ReadState, ReadyStatus;
    ghost var t := ApprovalTrace(dir.disk, a, tx);
    dir.Put(tx.file, tx.content);
    dir.Put(Note("prime_action_review_packet.json"), Text);
    dir.Put(tx.file, tx.content);
    var r := dir.SetProcState(WithOther("txHandoffs").(status := Some(ReadyStatus(a))));
    LogDeterminesDisk(dir, old(dir.disk), old(dir.log), t.writes);
    return if r.Ok? then Advanced else HandlerError;
  }

  method MarkExternalAction(dir: ProcDir, a: ActionName, tx: string, force: bool) returns (o: Outcome)
    requires dir.Valid()
    modifies dir
    ensures Wrote(dir, old(dir.disk), old(dir.log), MarkTrace(old(dir.disk), a, tx, force).writes)
    ensures o == MarkTrace(old(dir.disk), a, tx, force).outcome
    ensures o == Advanced ==> MarkedAs(old(dir.disk), a, dir.disk)
  {
    hide SetState, ApplyAll, ReadyStatus, SubmittedStatus, TxReference, MarkedAs;
    ghost var t := MarkTrace(dir.disk, a, tx, force);
    if t.outcome == Advanced {
      MarkedIsSubmitted(dir.disk, a, tx, force);
    }
    if !TxReference(tx) {
      LogDeterminesDisk(dir, old(dir.disk), old(dir.log), t.writes);
      return HandlerError;
    }
    var state := dir.GetProcState();
    if state.None? || (state.value.body.status != ReadyStatus(a) && !force) {
      LogDeterminesDisk(dir, old(dir.disk), old(dir.log), t.writes);
      return HandlerError;
    }
    dir.Put(Note("external_receipt.json"), Text);
    var r := dir.SetProcState(NO_PATCH.(status := Some(SubmittedStatus(a))));
    LogDeterminesDisk(dir, old(dir.disk), old(dir.log), t.writes);
    return if r.Ok? then Advanced else HandlerError;
  }

  /** Of the prior statuses the approval command accepts, exactly two are refused by the transition table;
      there the package has already been rewritten when the status write is refused. */
  lemma ApprovalAcceptsTwoIllegalMoves(d: Disk, a: ActionName)
    requires ReadState(d).Some? && ReadState(d).value.body.status in ApprovableFrom(a) && Package(d, a).Some?
    ensures var t := ApproveTrace(d, a, false, true);
            var s := ReadState(d).value.body.status;
            && |t.writes| >= 3 && t.writes[0] == Package(d, a).value
            && (t.outcome == HandlerError <==>
                (a == AcceptFinalistAction && s == RevealSubmitted) || (a == SubmitTrialAction && s == FinalistAcceptSubmitted))
            && (t.outcome == HandlerError <==> |t.writes| == 3)
  {
    hide Package, Merge, ValidTransition;
    var s := ReadState(d).value.body.status;
    TwoApprovalsAreIllegal(a, s);
  }

  lemma TwoApprovalsAreIllegal(a: ActionName, s: Status)
    requires s in ApprovableFrom(a)
    ensures ReadyStatus(a) != s
    ensures ValidTransition(s, ReadyStatus(a)) <==>
            !(a == AcceptFinalistAction && s == RevealSubmitted) && !(a == SubmitTrialAction && s == FinalistAcceptSubmitted)
  {
  }

  /** A reference is 0x followed by letters and digits, at least one. */
  lemma ReferencesAre(r: string)
    ensures TxReference("0x" + r) <==>
            r != "" && forall k :: 0 <= k < |r| ==> '0' <= r[k] <= '9' || 'a' <= r[k] <= 'z' || 'A' <= r[k] <= 'Z'
    ensures !("0x" <= r) ==> !TxReference(r)
  {
    var t := "0x" + r;
    assert forall k :: 0 <= k < |r| ==> r[k] == t[k + 2];
    assert forall k :: 2 <= k < |t| ==> t[k] == r[k - 2];
    if |r| > 2 && r[0] == '0' && r[1] == 'x' {
      assert r[..2] == "0x";
    }
  }

  /** Marking an external submission without --force goes through exactly in the ready status of the action and with a
      well-formed transaction reference; the transition itself is then always legal. */
  lemma MarkingAReadyActionIsLegal(d: Disk, a: ActionName, tx: string)
    ensures MarkTrace(d, a, tx, false).outcome == Advanced <==>
              && TxReference(tx) && ReadState(d).Some?
              && var s := ReadState(d).value.body.status;
                 && (a == CommitAction ==> s == CommitReady) && (a == RevealAction ==> s == RevealReady)
                 && (a == AcceptFinalistAction ==> s == FinalistAcceptReady) && (a == SubmitTrialAction ==> s == TrialReady)
  {
    hide TxReference, Merge;
  }
}

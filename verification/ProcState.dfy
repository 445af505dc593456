/** The directory of one procurement: state.json with its integrity hash, and the artifact files beside it. */
module ProcState {
  import opened Basics
  import opened PhaseModel
  import opened Commitments

  // ---- state.json ----

  datatype Entry = Entry(status: Status, forced: bool)

  /** The fields covered by the state hash. Fields the model does not read are kept as text in `other`. */
  datatype Body = Body(
    status: Status, history: seq<Entry>,
    linkedJobId: Option<string>,
    applicationURI: Option<Uri>, commitmentSalt: Option<Bytes32>, commitmentHash: Option<Digest>,
    fitEvaluated: bool, shortlisted: bool, selected: bool, validatorAssigned: bool,
    other: map<string, string>)

  datatype StateHash = Sha256(body: Body) | OtherText(text: string)

  /** A state file; the hash covers everything but itself and the recorded integrity error. */
  datatype Record = Record(body: Body, integrityError: bool, stateHash: Option<StateHash>)

  datatype StateError = NoState | InvalidTransition(from: Status, to: Status)

  function EmptyBody(jobId: Option<string>): Body {
    Body(Discovered, [Entry(Discovered, false)], jobId, None, None, None, false, false, false, false, map[])
  }

  function Attach(body: Body, integrityError: bool): Record {
    Record(body, integrityError, Some(Sha256(body)))
  }

  predicate Verifies(r: Record) {
    r.stateHash == Some(Sha256(r.body))
  }

  /** What a reader of the file sees: a hash that does not verify raises the integrity error. */
  function OnRead(file: Option<Record>): Option<Record> {
    match file
    case None => None
    case Some(r) => Some(r.(integrityError := r.integrityError || !Verifies(r)))
  }

  /** A partial state: only the fields present are merged. */
  datatype Patch = Patch(
    status: Option<Status>, linkedJobId: Option<Option<string>>,
    commitment: Option<(Uri, Bytes32, Digest)>,
    fitEvaluated: Option<bool>, shortlisted: Option<bool>, selected: Option<bool>, validatorAssigned: Option<bool>,
    other: map<string, string>)

  const NO_PATCH := Patch(None, None, None, None, None, None, None, map[])

  /** Spread of a patch over the current fields, status and history aside. */
  function Merge(b: Body, p: Patch): Body {
    b.(linkedJobId := OrElse(p.linkedJobId, b.linkedJobId),
       applicationURI := if p.commitment.Some? then Some(p.commitment.value.0) else b.applicationURI,
       commitmentSalt := if p.commitment.Some? then Some(p.commitment.value.1) else b.commitmentSalt,
       commitmentHash := if p.commitment.Some? then Some(p.commitment.value.2) else b.commitmentHash,
       fitEvaluated := OrElse(p.fitEvaluated, b.fitEvaluated),
       shortlisted := OrElse(p.shortlisted, b.shortlisted),
       selected := OrElse(p.selected, b.selected),
       validatorAssigned := OrElse(p.validatorAssigned, b.validatorAssigned),
       other := b.other + p.other)
  }

  function Enter(b: Body, s: Status, forced: bool): Body {
    b.(status := s, history := b.history + [Entry(s, forced)])
  }

  function CurrentOrFresh(file: Option<Record>): Record {
    OrElse(OnRead(file), Record(EmptyBody(None), false, None))
  }

  /** setProcState: a status in the patch that differs from the current one must be a legal next status. */
  function SetState(file: Option<Record>, p: Patch): Result<Record, StateError> {
    var current := CurrentOrFresh(file);
    var merged := Merge(current.body, p);
    if p.status.Some? && p.status.value != current.body.status then
      if ValidTransition(current.body.status, p.status.value)
      then Ok(Attach(Enter(merged, p.status.value, false), current.integrityError))
      else Err(InvalidTransition(current.body.status, p.status.value))
    else Ok(Attach(merged, current.integrityError))
  }

  /** transitionProcStatus: the file must exist and the move must be legal, even onto the same status. */
  function TransitionState(file: Option<Record>, s: Status, extra: Patch): Result<Record, StateError> {
    match OnRead(file)
    case None => Err(NoState)
    case Some(current) =>
      if ValidTransition(current.body.status, s)
      then Ok(Attach(Enter(Merge(current.body, extra), s, false), current.integrityError))
      else Err(InvalidTransition(current.body.status, s))
  }

  /** forceSetProcState: no transition check; a new status is marked as forced in the history. */
  function ForceState(file: Option<Record>, p: Patch): Record {
    var current := CurrentOrFresh(file);
    var merged := Merge(current.body, p);
    if p.status.Some? && p.status.value != current.body.status
    then Attach(Enter(merged, p.status.value, true), current.integrityError)
    else Attach(merged, current.integrityError)
  }

  /** Every field the patch gives has its value, every other field is as before, status and history aside. */
  ghost predicate Patched(b: Body, p: Patch, b': Body) {
    && (match p.linkedJobId case Some(v) => b'.linkedJobId == v case None => b'.linkedJobId == b.linkedJobId)
    && (match p.commitment
        case Some((uri, salt, hash)) =>
          b'.applicationURI == Some(uri) && b'.commitmentSalt == Some(salt) && b'.commitmentHash == Some(hash)
        case None =>
          b'.applicationURI == b.applicationURI && b'.commitmentSalt == b.commitmentSalt && b'.commitmentHash == b.commitmentHash)
    && (match p.fitEvaluated case Some(v) => b'.fitEvaluated == v case None => b'.fitEvaluated == b.fitEvaluated)
    && (match p.shortlisted case Some(v) => b'.shortlisted == v case None => b'.shortlisted == b.shortlisted)
    && (match p.selected case Some(v) => b'.selected == v case None => b'.selected == b.selected)
    && (match p.validatorAssigned case Some(v) => b'.validatorAssigned == v case None => b'.validatorAssigned == b.validatorAssigned)
    && (forall key :: key in b'.other <==> key in p.other || key in b.other)
    && (forall key :: key in b'.other ==> b'.other[key] == if key in p.other then p.other[key] else b.other[key])
  }

  /** A new status is the last entry of the history and marked if it was forced; without one both are as before. */
  predicate StatusEntered(b: Body, s: Status, forced: bool, b': Body) {
    b'.status == s && |b'.history| == |b.history| + 1 && b'.history[..|b.history|] == b.history && b'.history[|b.history|] == Entry(s, forced)
  }

  predicate StatusLeft(b: Body, b': Body) {
    b'.status == b.status && b'.history == b.history
  }

  /** setProcState patches the fields of the current or a fresh record, and enters a status that is given and differs; it
      is refused exactly when that move is illegal. */
  lemma SetPatches(file: Option<Record>, p: Patch)
    ensures var b, r := CurrentOrFresh(file).body, SetState(file, p);
            var moves := p.status.Some? && p.status.value != b.status;
            && (r.Err? <==> moves && !ValidTransition(b.status, p.status.value))
            && (r.Ok? ==> Patched(b, p, r.value.body))
            && (r.Ok? ==> if moves then StatusEntered(b, p.status.value, false, r.value.body) else StatusLeft(b, r.value.body))
  {
    hide ValidTransition, Patched, Merge, Verifies, Enter, StatusLeft, StatusEntered, CurrentOrFresh;
    var b := CurrentOrFresh(file).body;
    MergePatches(b, p);
    if p.status.Some? {
      EnteringKeepsFields(b, p, Merge(b, p), p.status.value, false);
    }
  }

  /** forceSetProcState does the same without the check, and marks the entry. */
  lemma ForcePatches(file: Option<Record>, p: Patch)
    ensures var b, b' := CurrentOrFresh(file).body, ForceState(file, p).body;
            && Patched(b, p, b')
            && if p.status.Some? && p.status.value != b.status then StatusEntered(b, p.status.value, true, b') else StatusLeft(b, b')
  {
    hide Patched, Merge, Verifies, Enter, StatusLeft, StatusEntered, CurrentOrFresh;
    var b := CurrentOrFresh(file).body;
    MergePatches(b, p);
    if p.status.Some? {
      EnteringKeepsFields(b, p, Merge(b, p), p.status.value, true);
    }
  }

  /** transitionProcStatus needs a record and a legal move, even onto the same status, and always adds an entry. */
  lemma TransitionPatches(file: Option<Record>, s: Status, extra: Patch)
    ensures var r := TransitionState(file, s, extra);
            && (r.Ok? <==> file.Some? && ValidTransition(file.value.body.status, s))
            && (r.Ok? ==> Patched(file.value.body, extra, r.value.body) && StatusEntered(file.value.body, s, false, r.value.body))
  {
    hide ValidTransition, Patched, Merge, Verifies, Enter, StatusLeft, StatusEntered;
    if file.Some? {
      var b := file.value.body;
      MergePatches(b, extra);
      EnteringKeepsFields(b, extra, Merge(b, extra), s, false);
    }
  }

  lemma MergePatches(b: Body, p: Patch)
    ensures Patched(b, p, Merge(b, p)) && StatusLeft(b, Merge(b, p))
  {
  }

  lemma EnteringKeepsFields(b: Body, p: Patch, b': Body, s: Status, forced: bool)
    requires Patched(b, p, b') && StatusLeft(b, b')
    ensures Patched(b, p, Enter(b', s, forced)) && StatusEntered(b, s, forced, Enter(b', s, forced))
  {
  }

  /** A procurement without a state file starts as DISCOVERED, with one history entry and nothing recorded. */
  lemma FreshStateIs(jobId: Option<string>)
    ensures var b := EmptyBody(jobId);
            && b.status == Discovered && b.history == [Entry(Discovered, false)] && b.linkedJobId == jobId
            && b.applicationURI.None? && b.commitmentSalt.None? && b.commitmentHash.None?
            && !b.fitEvaluated && !b.shortlisted && !b.selected && !b.validatorAssigned && b.other == map[]
  {
  }

  // ---- the artifact files ----

  datatype File =
    | StateJson
    | FitEvaluation | ProcurementSnapshot
    | Brief | Payload | CommitmentMaterial | CommitTx
    | RevealPayload | CommitmentVerification | RevealTx
    | AcceptancePacket | StakeRequirements | StakePreflight | TrialPlan | FinalistManifest | FinalistTx
    | TrialManifest | PublicationRecord | TrialPayload | FetchbackVerification | TrialReviewManifest | TrialTx
    | Note(path: string)

  datatype Material = Material(agent: Address, uri: Uri, salt: Bytes32, hash: Digest,
                               subdomain: Option<string>, proof: Option<seq<string>>)

  datatype Content =
    | StateC(record: Record)
    | FitC(pass: bool)
    | PayloadC(uri: Uri)
    | MaterialC(material: Material)
    | CommitTxC(commitment: Digest)
    | RevealPayloadC(uri: Uri, salt: Bytes32)
    | VerificationC(passed: bool)
    | RevealTxC(uri: Uri, salt: Bytes32)
    | PreflightC(balance: bool, allowance: bool)
    | TrialUriC(uri: Uri)
    | FetchbackC(verified: bool)
    | Text

  type Disk = map<File, Content>

  function ReadState(d: Disk): Option<Record> {
    if StateJson in d && d[StateJson].StateC? then Some(d[StateJson].record) else None
  }

  function ReadMaterial(d: Disk): Option<Material> {
    if CommitmentMaterial in d && d[CommitmentMaterial].MaterialC? then Some(d[CommitmentMaterial].material) else None
  }

  /** One atomic file write (temporary file, then rename). */
  datatype Write = Write(file: File, content: Content)

  function Apply(d: Disk, w: Write): Disk {
    d[w.file := w.content]
  }

  function ApplyAll(d: Disk, ws: seq<Write>): Disk {
    if ws == [] then d else Apply(ApplyAll(d, ws[..|ws| - 1]), ws[|ws| - 1])
  }

  lemma NoWrites(d: Disk)
    ensures ApplyAll(d, []) == d
  {
  }

  lemma {:induction false} ApplyAllConcat(d: Disk, a: seq<Write>, b: seq<Write>)
    ensures ApplyAll(d, a + b) == ApplyAll(ApplyAll(d, a), b)
  {
    if b == [] {
      assert a + b == a;
    } else {
      ApplyAllConcat(d, a, b[..|b| - 1]);
      assert (a + b)[..|a + b| - 1] == a + b[..|b| - 1];
    }
  }

  function StateWrite(r: Record): Write {
    Write(StateJson, StateC(r))
  }

  // ---- the directory as an object ----

  /** The files of one procurement as the running process sees them. `log` lists its writes in order,
      so a process that dies after k of them leaves `base` with the first k writes applied. */
  class ProcDir {
    const id: UInt256
    var disk: Disk
    ghost const base: Disk
    ghost var log: seq<Write>

    ghost predicate Valid()
      reads this
    {
      disk == ApplyAll(base, log)
    }

    constructor (id: UInt256, disk: Disk)
      ensures Valid() && this.id == id && this.disk == disk && base == disk && log == []
    {
      this.id := id;
      this.disk := disk;
      this.base := disk;
      this.log := [];
    }

    method Put(file: File, content: Content)
      requires Valid()
      modifies this
      ensures Valid()
      ensures log == old(log) + [Write(file, content)]
      ensures disk == old(disk)[file := content]
      ensures file != StateJson ==> ReadState(disk) == old(ReadState(disk))
    {
      disk := disk[file := content];
      log := log + [Write(file, content)];
    }

    method GetProcState() returns (r: Option<Record>)
      ensures r == OnRead(ReadState(disk))
    {
      r := ReadState(disk);
      if r.Some? && !Verifies(r.value) {
        r := Some(r.value.(integrityError := true));
      }
    }

    method GetOrCreateProcState(jobId: Option<string>) returns (r: Record)
      requires Valid()
      modifies this
      ensures Valid()
      ensures match OnRead(old(ReadState(disk)))
              case Some(existing) => r == existing && log == old(log) && disk == old(disk)
              case None => r == Attach(EmptyBody(jobId), false) && log == old(log) + [StateWrite(r)]
                           && disk == Apply(old(disk), StateWrite(r))
    {
      var existing := GetProcState();
      if existing.Some? {
        return existing.value;
      }
      r := Attach(EmptyBody(jobId), false);
      Put(StateJson, StateC(r));
    }

    method SetProcState(p: Patch) returns (r: Result<Record, StateError>)
      requires Valid()
      modifies this
      ensures Valid()
      ensures r == SetState(old(ReadState(disk)), p)
      ensures r.Ok? ==> log == old(log) + [StateWrite(r.value)] && disk == Apply(old(disk), StateWrite(r.value))
      ensures r.Err? ==> log == old(log) && disk == old(disk)
    {
      var file := GetProcState();
      var current := OrElse(file, Record(EmptyBody(None), false, None));
      var next := Merge(current.body, p);
      if p.status.Some? && p.status.value != current.body.status {
        if !ValidTransition(current.body.status, p.status.value) {
          return Err(InvalidTransition(current.body.status, p.status.value));
        }
        next := next.(status := p.status.value, history := next.history + [Entry(p.status.value, false)]);
      }
      var written := Attach(next, current.integrityError);
      Put(StateJson, StateC(written));
      r := Ok(written);
    }

    method ForceSetProcState(p: Patch) returns (r: Record)
      requires Valid()
      modifies this
      ensures Valid()
      ensures r == ForceState(old(ReadState(disk)), p)
      ensures log == old(log) + [StateWrite(r)] && disk == Apply(old(disk), StateWrite(r))
    {
      var file := GetProcState();
      var current := OrElse(file, Record(EmptyBody(None), false, None));
      var next := Merge(current.body, p);
      if p.status.Some? && p.status.value != current.body.status {
        next := next.(status := p.status.value, history := next.history + [Entry(p.status.value, true)]);
      }
      r := Attach(next, current.integrityError);
      Put(StateJson, StateC(r));
    }

    method TransitionProcStatus(s: Status, extra: Patch) returns (r: Result<Record, StateError>)
      requires Valid()
      modifies this
      ensures Valid()
      ensures r == TransitionState(old(ReadState(disk)), s, extra)
      ensures r.Ok? ==> log == old(log) + [StateWrite(r.value)] && disk == Apply(old(disk), StateWrite(r.value))
      ensures r.Err? ==> log == old(log) && disk == old(disk)
    {
      var current := GetProcState();
      if current.None? {
        return Err(NoState);
      }
      var body := current.value.body;
      if !ValidTransition(body.status, s) {
        return Err(InvalidTransition(body.status, s));
      }
      var next := Merge(body, extra);
      var written := Attach(next.(status := s, history := next.history + [Entry(s, false)]), current.value.integrityError);
      Put(StateJson, StateC(written));
      r := Ok(written);
    }
  }

}

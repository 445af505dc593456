/** Integrity of state.json over any sequence of state operations. */
module Integrity {
  import opened Basics
  import opened PhaseModel
  import opened ProcState

  /** Everything the state functions can do to the file; appendReviewLog and the receipt functions are Set with `other`. */
  datatype StateOp =
    | GetOrCreate(jobId: Option<string>)
    | Set(patch: Patch)
    | Transition(status: Status, extra: Patch)
    | Force(forced: Patch)

  /** The file after one operation; a refused write leaves it as it was. */
  function Perform(file: Option<Record>, op: StateOp): Option<Record> {
    match op
    case GetOrCreate(jobId) => if file.Some? then file else Some(Attach(EmptyBody(jobId), false))
    case Set(p) => (match SetState(file, p) case Ok(r) => Some(r) case Err(_) => file)
    case Transition(s, extra) => (match TransitionState(file, s, extra) case Ok(r) => Some(r) case Err(_) => file)
    case Force(p) => Some(ForceState(file, p))
  }

  function PerformAll(file: Option<Record>, ops: seq<StateOp>): Option<Record> {
    if ops == [] then file else Perform(PerformAll(file, ops[..|ops| - 1]), ops[|ops| - 1])
  }

  predicate ReadsClean(file: Option<Record>) {
    file.Some? ==> !OnRead(file).value.integrityError
  }

  /** The hash verifies and no integrity error is recorded. */
  predicate Intact(file: Option<Record>) {
    file.Some? ==> Verifies(file.value) && !file.value.integrityError
  }

  /** The state functions keep an intact file intact; in particular, whatever they wrote from scratch verifies. */
  lemma {:induction false} WrittenStateVerifies(file: Option<Record>, ops: seq<StateOp>)
    requires Intact(file)
    ensures Intact(PerformAll(file, ops))
  {
    if ops != [] {
      WrittenStateVerifies(file, ops[..|ops| - 1]);
    }
  }

  /** Once a read reports an integrity error, every read after any further operations reports it. */
  lemma {:induction false} IntegrityErrorIsSticky(file: Option<Record>, ops: seq<StateOp>)
    requires file.Some? && !ReadsClean(file)
    ensures PerformAll(file, ops).Some? && !ReadsClean(PerformAll(file, ops))
  {
    if ops != [] {
      IntegrityErrorIsSticky(file, ops[..|ops| - 1]);
    }
  }

  /** After an edit of the hashed fields that leaves the stored hash alone, and any further operations,
      reads are clean exactly when the edit changed nothing. */
  lemma AlteredFileIsNeverTrustedAgain(before: seq<StateOp>, altered: Body, after: seq<StateOp>)
    requires PerformAll(None, before).Some?
    ensures var written := PerformAll(None, before).value;
            ReadsClean(PerformAll(Some(written.(body := altered)), after)) <==> altered == written.body
  {
    WrittenStateVerifies(None, before);
    var written := PerformAll(None, before).value;
    var edited := Some(written.(body := altered));
    if altered == written.body {
      assert edited == Some(written);
      WrittenStateVerifies(edited, after);
    } else {
      IntegrityErrorIsSticky(edited, after);
    }
  }
}

/** Runs of one procurement: orchestrator, monitor and operator steps in any order, each of which may die
    after any of its writes. The invariant of all runs is established here; `LifecycleTheorems` reads it off. */
module Lifecycle {
  import opened Basics
  import opened PhaseModel
  import opened Commitments
  import opened ProcState
  import opened Milestones
  import opened NextAction
  import opened ReviewGates
  import opened Handlers
  import opened Operator
  import opened MonitorRefresh

  datatype Actor = Automation | Human

  datatype Step =
    | Orchestrate(env: Env)
    | DiscoverEvent(jobId: string, inspectionOk: bool)
    | ShortlistEvent
    | WinnerEvent(selected: bool)
    | Refresh(refresh: RefreshEnv)
    | OperatorSet(patch: Patch)
    | OperatorApprove(approve: ActionName, force: bool, encodingOk: bool)
    | OperatorMark(mark: ActionName, tx: string, forced: bool)

  function ActorOf(s: Step): Actor {
    if s.OperatorSet? || s.OperatorApprove? || s.OperatorMark? then Human else Automation
  }

  /** What the operator sets by hand is any field but the commitment, and any status the transition table allows. */
  function ByHand(p: Patch): Patch {
    p.(commitment := None)
  }

  /** The writes of one step; `h` says whether the gates' comparison helper is defined. */
  function StepWrites(id: UInt256, h: Helper, d: Disk, s: Step): seq<Write> {
    match s
    case Orchestrate(env) => AdvanceTrace(id, d, env.(helper := h)).writes
    case DiscoverEvent(jobId, ok) => DiscoverTrace(d, jobId, ok).writes
    case ShortlistEvent => ShortlistTrace(d).writes
    case WinnerEvent(selected) => WinnerTrace(d, selected).writes
    case Refresh(e) => RefreshTrace(d, e).writes
    case OperatorSet(p) => if ReadState(d).None? then [] else ThenSet([], d, ByHand(p)).writes
    case OperatorApprove(a, force, ok) => ApproveTrace(d, a, force, ok).writes
    case OperatorMark(a, tx, force) => MarkTrace(d, a, tx, force).writes
  }

  /** A step of which only the first `survived` writes reached the disk (all of them if it has fewer). */
  datatype Event = Event(step: Step, survived: nat)

  function Next(id: UInt256, h: Helper, d: Disk, e: Event): Disk {
    ApplyAll(d, Upto(StepWrites(id, h, d, e.step), e.survived))
  }

  /** The files after a run that starts from nothing. */
  function Run(id: UInt256, h: Helper, run: seq<Event>): Disk {
    if run == [] then map[] else Next(id, h, Run(id, h, run[..|run| - 1]), run[|run| - 1])
  }

  function HistoryOf(d: Disk): seq<Entry> {
    match ReadState(d)
    case None => []
    case Some(r) => r.body.history
  }

  /** Credits every history entry that a step added to the actor of the step. */
  ghost function Credit(a: seq<Actor>, actor: Actor, before: Disk, after: Disk): seq<Actor> {
    if |HistoryOf(after)| > |HistoryOf(before)|
    then a + seq(|HistoryOf(after)| - |HistoryOf(before)|, i => actor)
    else a
  }

  /** Who made each entry of the status history. */
  ghost function Authors(id: UInt256, h: Helper, run: seq<Event>): seq<Actor> {
    if run == [] then []
    else
      var before := Run(id, h, run[..|run| - 1]);
      Credit(Authors(id, h, run[..|run| - 1]), ActorOf(run[|run| - 1].step), before, Run(id, h, run))
  }

  // ---- what automation does to the status ----

  predicate AutoEdge(h: Helper, s: Status, t: Status) {
    || (s == Discovered && t == Inspected)
    || (s == FitApproved && t == ApplicationDrafted)
    || (s == ApplicationDrafted && t == CommitReady)
    || (h == Defined && s == CommitSubmitted && t == RevealReady)
    || (s == FinalistAcceptSubmitted && t == TrialInProgress)
    || (h == Defined && s == TrialInProgress && t == TrialReady)
    || (s == Selected && t == JobExecutionInProgress)
    || (t == MissedWindow && s in {FitApproved, ApplicationDrafted, CommitReady, CommitSubmitted, RevealReady, Shortlisted,
                                   FinalistAcceptReady, FinalistAcceptSubmitted, TrialInProgress, TrialReady, WaitingScorePhase,
                                   ValidatorScoreCommitSubmitted})
  }

  // ---- the invariant ----

  /** Entries credited to automation were reached along automation's own edges. */
  ghost predicate CreditsOk(h: Helper, hist: seq<Entry>, a: seq<Actor>) {
    && |a| == |hist|
    && forall i :: 0 < i < |hist| && a[i] == Automation ==> AutoEdge(h, hist[i - 1].status, hist[i].status)
  }

  ghost predicate AutoDrafted(hist: seq<Entry>, a: seq<Actor>) {
    exists i :: 0 <= i < |hist| && i < |a| && hist[i].status == ApplicationDrafted && a[i] == Automation
  }

  /** State, commitment material, application payload and commit package all carry one and the same commitment. */
  predicate SameCommitment(id: UInt256, d: Disk, b: Body) {
    && b.applicationURI.Some? && b.commitmentSalt.Some? && b.commitmentHash.Some?
    && ReadMaterial(d).Some?
    && var m := ReadMaterial(d).value;
       && b.commitmentHash.value == m.hash == ComputeCommitment(id, m.agent, m.uri, m.salt)
       && b.applicationURI.value == m.uri && b.commitmentSalt.value == m.salt
       && Payload in d && d[Payload] == PayloadC(m.uri)
       && CommitTx in d && d[CommitTx] == CommitTxC(m.hash)
  }

  predicate RevealOpensMaterial(d: Disk) {
    RevealTx in d ==> ReadMaterial(d).Some? && d[RevealTx] == RevealTxC(ReadMaterial(d).value.uri, ReadMaterial(d).value.salt)
  }

  /** The commitment side of the invariant. */
  ghost predicate Bound(id: UInt256, d: Disk, b: Body, a: seq<Actor>) {
    && (b.commitmentHash.Some? <==> AutoDrafted(b.history, a))
    && (b.commitmentHash.Some? ==> SameCommitment(id, d, b))
    && RevealOpensMaterial(d)
    && (RevealTx in d ==> Occurs(ApplicationDrafted, b.history))
  }

  /** commitment_material.json as the orchestrator writes it has neither subdomain nor proof. */
  predicate MaterialLacksProof(d: Disk) {
    ReadMaterial(d).Some? ==> ReadMaterial(d).value.subdomain.None? && ReadMaterial(d).value.proof.None?
  }

  ghost predicate Inv(id: UInt256, h: Helper, d: Disk, a: seq<Actor>) {
    && MaterialLacksProof(d)
    && match ReadState(d)
       case None => StateJson !in d && a == [] && RevealTx !in d
       case Some(r) =>
         && Verifies(r) && !r.integrityError
         && HistoryTellsStatus(r.body)
         && CreditsOk(h, r.body.history, a)
         && Bound(id, d, r.body, a)
  }

  // ---- writes that keep the invariant ----

  /** A state write that leaves the history alone, or extends it by one entry the actor may make. */
  ghost predicate Evolves(h: Helper, b: Body, b': Body, actor: Actor) {
    && (|| (b'.history == b.history && b'.status == b.status)
        || (&& b'.history == b.history + [Entry(b'.status, false)]
            && ValidTransition(b.status, b'.status)
            && (actor == Automation ==> AutoEdge(h, b.status, b'.status))))
  }

  predicate SameFields(b: Body, b': Body) {
    b'.applicationURI == b.applicationURI && b'.commitmentSalt == b.commitmentSalt && b'.commitmentHash == b.commitmentHash
  }

  /** A state write enters ApplicationDrafted on behalf of automation exactly when it records a commitment. */
  ghost predicate GoodStateWrite(id: UInt256, h: Helper, d: Disk, r: Record, actor: Actor) {
    && Verifies(r) && !r.integrityError
    && match ReadState(d)
       case None => r.body.history == [Entry(Discovered, false)] && r.body.status == Discovered && r.body.commitmentHash.None?
       case Some(r0) =>
         && Evolves(h, r0.body, r.body, actor)
         && if actor == Automation && r0.body.status == FitApproved && r.body.status == ApplicationDrafted
            then SameCommitment(id, d, r.body)
            else SameFields(r0.body, r.body)
  }

  predicate AtStatus(d: Disk, s: Status) {
    ReadState(d).Some? && ReadState(d).value.body.status == s
  }

  ghost predicate GoodWrite(id: UInt256, h: Helper, d: Disk, w: Write, actor: Actor) {
    match w.file
    case StateJson => w.content.StateC? && GoodStateWrite(id, h, d, w.content.record, actor)
    case Payload => AtStatus(d, FitApproved)
    case CommitmentMaterial =>
      AtStatus(d, FitApproved) && w.content.MaterialC? && w.content.material.subdomain.None? && w.content.material.proof.None?
    case CommitTx =>
      || AtStatus(d, FitApproved)
      || (ReadState(d).Some? && ReadState(d).value.body.commitmentHash.Some?
          && w.content == CommitTxC(ReadState(d).value.body.commitmentHash.value))
    case RevealTx =>
      && AtStatus(d, CommitSubmitted)
      && ReadMaterial(d).Some? && w.content == RevealTxC(ReadMaterial(d).value.uri, ReadMaterial(d).value.salt)
    case _ => true
  }

  ghost predicate GoodWrites(id: UInt256, h: Helper, d: Disk, ws: seq<Write>, actor: Actor) {
    forall k :: 0 <= k < |ws| ==> GoodWrite(id, h, ApplyAll(d, ws[..k]), ws[k], actor)
  }

  lemma FitApprovedIsBeforeDrafting(b: Body)
    requires HistoryTellsStatus(b) && b.status == FitApproved
    ensures !Occurs(ApplicationDrafted, b.history)
  {
    if Occurs(ApplicationDrafted, b.history) {
      var i :| 0 <= i < |b.history| && b.history[i].status == ApplicationDrafted;
      RanksIncrease(b.history, i, |b.history| - 1);
    }
  }

  /** A legal history at CommitSubmitted has been drafted. */
  lemma SubmittedWasDrafted(b: Body)
    requires HistoryTellsStatus(b) && b.status == CommitSubmitted
    ensures Occurs(ApplicationDrafted, b.history)
  {
    assert Guards(ApplicationDrafted, CommitSubmitted);
    var k := GuardsWereVisited(b.history, |b.history| - 1, ApplicationDrafted);
  }

  lemma FileWriteKeepsInv(id: UInt256, h: Helper, d: Disk, a: seq<Actor>, w: Write, actor: Actor)
    requires Inv(id, h, d, a) && GoodWrite(id, h, d, w, actor) && w.file != StateJson
    ensures Inv(id, h, Apply(d, w), a) && HistoryOf(Apply(d, w)) == HistoryOf(d)
  {
    hide LegalHistory, CreditsOk, ValidTransition;
    var d' := Apply(d, w);
    assert ReadState(d') == ReadState(d);
    if ReadState(d).Some? {
      var b := ReadState(d).value.body;
      if b.status == FitApproved {
        FitApprovedIsBeforeDrafting(b);
      } else if b.status == CommitSubmitted {
        SubmittedWasDrafted(b);
      }
    }
  }

  lemma OccursGrows(s: Status, hist: seq<Entry>, e: Entry)
    ensures Occurs(s, hist + [e]) <==> Occurs(s, hist) || e.status == s
  {
    var longer := hist + [e];
    if Occurs(s, hist) {
      var i :| 0 <= i < |hist| && hist[i].status == s;
      assert longer[i].status == s;
    }
    assert longer[|hist|] == e;
    if Occurs(s, longer) && e.status != s {
      var i :| 0 <= i < |longer| && longer[i].status == s;
      assert hist[i].status == s;
    }
  }

  lemma AutoDraftedGrows(hist: seq<Entry>, a: seq<Actor>, e: Entry, actor: Actor)
    requires |a| == |hist|
    ensures AutoDrafted(hist + [e], a + [actor]) <==> AutoDrafted(hist, a) || (e.status == ApplicationDrafted && actor == Automation)
  {
    var longer, a' := hist + [e], a + [actor];
    if AutoDrafted(hist, a) {
      var i :| 0 <= i < |hist| && i < |a| && hist[i].status == ApplicationDrafted && a[i] == Automation;
      assert longer[i].status == ApplicationDrafted && a'[i] == Automation;
    }
    assert longer[|hist|] == e && a'[|hist|] == actor;
    if AutoDrafted(longer, a') && !(e.status == ApplicationDrafted && actor == Automation) {
      var i :| 0 <= i < |longer| && i < |a'| && longer[i].status == ApplicationDrafted && a'[i] == Automation;
      assert hist[i].status == ApplicationDrafted && a[i] == Automation;
    }
  }

  /** The first state write of a procurement. */
  lemma CreationKeepsInv(id: UInt256, h: Helper, d: Disk, r: Record, actor: Actor)
    requires Inv(id, h, d, []) && ReadState(d).None? && GoodStateWrite(id, h, d, r, actor)
    requires actor == Automation
    ensures Inv(id, h, Apply(d, StateWrite(r)), [actor])
  {
    var d' := Apply(d, StateWrite(r));
    assert ReadState(d') == Some(r);
    assert ReadMaterial(d') == ReadMaterial(d);
  }

  /** A state write without a new history entry. */
  lemma PatchKeepsInv(id: UInt256, h: Helper, d: Disk, a: seq<Actor>, r: Record, actor: Actor)
    requires Inv(id, h, d, a) && ReadState(d).Some? && GoodStateWrite(id, h, d, r, actor)
    requires r.body.history == ReadState(d).value.body.history
    ensures Inv(id, h, Apply(d, StateWrite(r)), a)
  {
    var d' := Apply(d, StateWrite(r));
    assert ReadState(d') == Some(r);
    assert ReadMaterial(d') == ReadMaterial(d);
    var b := ReadState(d).value.body;
    assert |r.body.history| == |b.history|;
  }

  lemma EntryKeepsCredits(h: Helper, hist: seq<Entry>, a: seq<Actor>, e: Entry, actor: Actor)
    requires CreditsOk(h, hist, a) && |hist| > 0
    requires actor == Automation ==> AutoEdge(h, hist[|hist| - 1].status, e.status)
    ensures CreditsOk(h, hist + [e], a + [actor])
  {
    var longer, a' := hist + [e], a + [actor];
    forall i | 0 < i < |longer| && a'[i] == Automation
      ensures AutoEdge(h, longer[i - 1].status, longer[i].status)
    {
      if i < |hist| {
        assert a[i] == Automation;
      }
    }
  }

  lemma EntryKeepsBound(id: UInt256, h: Helper, d: Disk, a: seq<Actor>, r: Record, actor: Actor)
    requires ReadState(d).Some? && GoodStateWrite(id, h, d, r, actor)
    requires Bound(id, d, ReadState(d).value.body, a) && |a| == |ReadState(d).value.body.history|
    requires r.body.history == ReadState(d).value.body.history + [Entry(r.body.status, false)]
    requires actor == Automation ==> AutoEdge(h, ReadState(d).value.body.status, r.body.status)
    ensures Bound(id, Apply(d, StateWrite(r)), r.body, a + [actor])
  {
    var d' := Apply(d, StateWrite(r));
    var b := ReadState(d).value.body;
    assert ReadMaterial(d') == ReadMaterial(d);
    OccursGrows(ApplicationDrafted, b.history, Entry(r.body.status, false));
    AutoDraftedGrows(b.history, a, Entry(r.body.status, false), actor);
    if actor == Automation && r.body.status == ApplicationDrafted {
      assert b.status == FitApproved;
      assert SameCommitment(id, d', r.body);
    } else {
      assert SameFields(b, r.body);
      assert SameCommitment(id, d, b) ==> SameCommitment(id, d', r.body);
    }
  }

  /** A state write with a new history entry. */
  lemma EntryKeepsInv(id: UInt256, h: Helper, d: Disk, a: seq<Actor>, r: Record, actor: Actor)
    requires Inv(id, h, d, a) && ReadState(d).Some? && GoodStateWrite(id, h, d, r, actor)
    requires r.body.history == ReadState(d).value.body.history + [Entry(r.body.status, false)]
    requires ValidTransition(ReadState(d).value.body.status, r.body.status)
    requires actor == Automation ==> AutoEdge(h, ReadState(d).value.body.status, r.body.status)
    ensures Inv(id, h, Apply(d, StateWrite(r)), a + [actor])
  {
    hide AutoEdge, ValidTransition, Bound;
    var d' := Apply(d, StateWrite(r));
    var b := ReadState(d).value.body;
    assert ReadState(d') == Some(r);
    assert ReadMaterial(d') == ReadMaterial(d);
    ExtendLegal(b.history, r.body.status);
    EntryKeepsCredits(h, b.history, a, Entry(r.body.status, false), actor);
    EntryKeepsBound(id, h, d, a, r, actor);
  }

  /** One good write keeps the invariant, with a new history entry credited to the actor. */
  lemma WriteKeepsInv(id: UInt256, h: Helper, d: Disk, a: seq<Actor>, w: Write, actor: Actor)
    requires Inv(id, h, d, a) && GoodWrite(id, h, d, w, actor)
    requires ReadState(d).None? ==> actor == Automation
    ensures Inv(id, h, Apply(d, w), Credit(a, actor, d, Apply(d, w)))
    ensures |HistoryOf(d)| <= |HistoryOf(Apply(d, w))| <= |HistoryOf(d)| + 1
    ensures ReadState(d).Some? ==> ReadState(Apply(d, w)).Some?
  {
    hide CreditsOk, Bound, ValidTransition, AutoEdge, SameCommitment;
    if w.file != StateJson {
      FileWriteKeepsInv(id, h, d, a, w, actor);
    } else {
      var r := w.content.record;
      assert w == StateWrite(r);
      if ReadState(d).None? {
        CreationKeepsInv(id, h, d, r, actor);
        assert Credit(a, actor, d, Apply(d, w)) == [actor];
      } else if r.body.history == ReadState(d).value.body.history {
        PatchKeepsInv(id, h, d, a, r, actor);
      } else {
        EntryKeepsInv(id, h, d, a, r, actor);
        assert Credit(a, actor, d, Apply(d, w)) == a + [actor];
      }
    }
  }

  lemma CreditNothing(a: seq<Actor>, actor: Actor, d: Disk)
    ensures Credit(a, actor, d, d) == a
  {
  }

  lemma CreditComposes(a: seq<Actor>, actor: Actor, d0: Disk, d1: Disk, d2: Disk)
    requires |HistoryOf(d0)| <= |HistoryOf(d1)| <= |HistoryOf(d2)|
    ensures Credit(Credit(a, actor, d0, d1), actor, d1, d2) == Credit(a, actor, d0, d2)
  {
    hide HistoryOf;
  }

  /** Good writes keep the invariant however many of them survive. */
  lemma {:induction false} WritesKeepInv(id: UInt256, h: Helper, d: Disk, a: seq<Actor>, ws: seq<Write>, actor: Actor, n: nat)
    requires Inv(id, h, d, a) && GoodWrites(id, h, d, ws, actor) && n <= |ws|
    requires ReadState(d).None? ==> actor == Automation
    ensures Inv(id, h, ApplyAll(d, ws[..n]), Credit(a, actor, d, ApplyAll(d, ws[..n])))
    ensures |HistoryOf(d)| <= |HistoryOf(ApplyAll(d, ws[..n]))|
    ensures ReadState(d).Some? ==> ReadState(ApplyAll(d, ws[..n])).Some?
  {
    hide Inv, GoodWrite, Credit, HistoryOf;
    if n == 0 {
      CreditNothing(a, actor, d);
    } else {
      WritesKeepInv(id, h, d, a, ws, actor, n - 1);
      var mid := ApplyAll(d, ws[..n - 1]);
      assert ws[..n][..n - 1] == ws[..n - 1];
      WriteKeepsInv(id, h, mid, Credit(a, actor, d, mid), ws[n - 1], actor);
      var end := Apply(mid, ws[n - 1]);
      CreditComposes(a, actor, d, mid, end);
    }
  }

  // ---- lists of good writes ----

  /** Files the invariant does not read. */
  predicate Inert(f: File) {
    f !in {StateJson, Payload, CommitmentMaterial, CommitTx, RevealTx}
  }

  predicate AllInert(ws: seq<Write>) {
    forall k :: 0 <= k < |ws| ==> Inert(ws[k].file)
  }

  /** Two disks agree on every file the invariant reads. */
  predicate Alike(d: Disk, d': Disk) {
    forall f :: f in {StateJson, Payload, CommitmentMaterial, CommitTx, RevealTx} ==>
      (f in d <==> f in d') && (f in d ==> d[f] == d'[f])
  }

  lemma {:induction false} InertWritesChangeNothing(d: Disk, ws: seq<Write>)
    requires AllInert(ws)
    ensures Alike(d, ApplyAll(d, ws))
    ensures ReadState(ApplyAll(d, ws)) == ReadState(d) && ReadMaterial(ApplyAll(d, ws)) == ReadMaterial(d)
  {
    if ws != [] {
      InertWritesChangeNothing(d, ws[..|ws| - 1]);
    }
  }

  lemma InertWritesAreGood(id: UInt256, h: Helper, d: Disk, ws: seq<Write>, actor: Actor)
    requires AllInert(ws)
    ensures GoodWrites(id, h, d, ws, actor)
  {
  }

  lemma GoodWritesConcat(id: UInt256, h: Helper, d: Disk, xs: seq<Write>, ys: seq<Write>, actor: Actor)
    requires GoodWrites(id, h, d, xs, actor) && GoodWrites(id, h, ApplyAll(d, xs), ys, actor)
    ensures GoodWrites(id, h, d, xs + ys, actor)
  {
    hide GoodWrite, ApplyAll;
    var zs := xs + ys;
    forall k | 0 <= k < |zs|
      ensures GoodWrite(id, h, ApplyAll(d, zs[..k]), zs[k], actor)
    {
      if k < |xs| {
        assert zs[..k] == xs[..k] && zs[k] == xs[k];
      } else {
        assert zs[..k] == xs + ys[..k - |xs|] && zs[k] == ys[k - |xs|];
        ApplyAllConcat(d, xs, ys[..k - |xs|]);
      }
    }
  }

  lemma GoodWritesSnoc(id: UInt256, h: Helper, d: Disk, xs: seq<Write>, w: Write, actor: Actor)
    requires GoodWrites(id, h, d, xs, actor) && GoodWrite(id, h, ApplyAll(d, xs), w, actor)
    ensures GoodWrites(id, h, d, xs + [w], actor)
    ensures ApplyAll(d, xs + [w]) == Apply(ApplyAll(d, xs), w)
  {
    var ys := [w];
    assert ys[..0] == [];
    GoodWritesConcat(id, h, d, xs, ys, actor);
    ApplyAllConcat(d, xs, ys);
    assert ys[..|ys| - 1] == [];
  }
}

/** The programs themselves, running on a directory object: what they leave on the disk at every instant is a run of the
    lifecycle, so everything proved of runs holds of the directory, wherever the process dies. */
module LifecycleObjects {
  import opened Basics
  import opened PhaseModel
  import opened Commitments
  import opened ProcState
  import opened ReviewGates
  import opened Handlers
  import opened Orchestrator
  import opened Operator
  import opened MonitorRefresh
  import opened Lifecycle
  import opened LifecycleSteps
  import opened LifecycleTheorems

  method SetIfPresent(dir: ProcDir, p: Patch, wanted: bool)
    requires dir.Valid()
    modifies dir
    ensures Wrote(dir, old(dir.disk), old(dir.log),
                  if old(ReadState(dir.disk)).None? || !wanted then [] else ThenSet([], old(dir.disk), p).writes)
  {
    hide SetState, ApplyAll;
    ghost var ws := if ReadState(dir.disk).None? || !wanted then [] else ThenSet([], dir.disk, p).writes;
    var state := dir.GetProcState();
    if state.Some? && wanted {
      var r := dir.SetProcState(p);
    }
    LogDeterminesDisk(dir, old(dir.disk), old(dir.log), ws);
  }

  /** Carries out one step of any kind. */
  method CarryOut(dir: ProcDir, h: Helper, s: Step)
    requires dir.Valid()
    modifies dir
    ensures Wrote(dir, old(dir.disk), old(dir.log), StepWrites(dir.id, h, old(dir.disk), s))
  {
    hide AdvanceTrace, DiscoverTrace, RefreshTrace, ApproveTrace, MarkTrace, SetState, ApplyAll;
    match s
    case Orchestrate(env) => var o := AdvanceProcurement(dir, env.(helper := h));
    case DiscoverEvent(jobId, ok) => var o := Discover(dir, jobId, ok);
    case ShortlistEvent =>
      var state := ReadState(dir.disk);
      SetIfPresent(dir, WithOther("shortlistBlock").(shortlisted := Some(true)), state.Some? && !state.value.body.shortlisted);
    case WinnerEvent(selected) => SetIfPresent(dir, WithOther("winnerEvidence").(selected := Some(selected)), true);
    case Refresh(e) => var o := RefreshProcurement(dir, e);
    case OperatorSet(p) => SetIfPresent(dir, ByHand(p), true);
    case OperatorApprove(a, force, ok) => var o := ApprovePrimeAction(dir, a, force, ok);
    case OperatorMark(a, tx, force) => var o := MarkExternalAction(dir, a, tx, force);
  }

  ghost predicate OutcomeOfARun(id: UInt256, h: Helper, d: Disk) {
    exists run: seq<Event> :: d == Run(id, h, run)
  }

  /** The lifecycle invariant, for some attribution of the history. */
  ghost predicate MeetsInv(id: UInt256, h: Helper, d: Disk) {
    exists a: seq<Actor> :: Inv(id, h, d, a)
  }

  /** Before and after every single write of the log the files are the outcome of a run. */
  ghost predicate ThroughRuns(id: UInt256, h: Helper, base: Disk, log: seq<Write>) {
    forall n :: 0 <= n <= |log| ==> OutcomeOfARun(id, h, ApplyAll(base, log[..n]))
  }

  /** Before and after every single write of the log the files meet the invariant. */
  ghost predicate ThroughInv(id: UInt256, h: Helper, base: Disk, log: seq<Write>) {
    forall n :: 0 <= n <= |log| ==> MeetsInv(id, h, ApplyAll(base, log[..n]))
  }

  lemma RunsMeetInv(id: UInt256, h: Helper, base: Disk, log: seq<Write>)
    requires ThroughRuns(id, h, base, log)
    ensures ThroughInv(id, h, base, log)
  {
    hide Run, Inv, Authors, ApplyAll;
    forall n | 0 <= n <= |log|
      ensures MeetsInv(id, h, ApplyAll(base, log[..n]))
    {
      assert OutcomeOfARun(id, h, ApplyAll(base, log[..n]));
      var run: seq<Event> :| ApplyAll(base, log[..n]) == Run(id, h, run);
      RunKeepsInv(id, h, run);
    }
  }

  lemma PrefixIsARun(id: UInt256, h: Helper, base: Disk, log: seq<Write>, s: Step, n: nat)
    requires OutcomeOfARun(id, h, ApplyAll(base, log)) && n <= |StepWrites(id, h, ApplyAll(base, log), s)|
    ensures OutcomeOfARun(id, h, ApplyAll(base, log + StepWrites(id, h, ApplyAll(base, log), s)[..n]))
  {
    hide Run, StepWrites, ApplyAll;
    var run: seq<Event> :| ApplyAll(base, log) == Run(id, h, run);
    var ws := StepWrites(id, h, ApplyAll(base, log), s);
    assert Upto(ws, n) == ws[..n];
    RunSnoc(id, h, run, Event(s, n));
    ApplyAllConcat(base, log, ws[..n]);
    assert ApplyAll(base, log + ws[..n]) == Run(id, h, run + [Event(s, n)]);
  }

  lemma StepGoesThroughRuns(id: UInt256, h: Helper, base: Disk, log: seq<Write>, s: Step)
    requires ThroughRuns(id, h, base, log)
    ensures ThroughRuns(id, h, base, log + StepWrites(id, h, ApplyAll(base, log), s))
  {
    hide OutcomeOfARun, StepWrites, ApplyAll;
    var ws := StepWrites(id, h, ApplyAll(base, log), s);
    var log' := log + ws;
    assert log[..|log|] == log;
    forall n | 0 <= n <= |log'|
      ensures OutcomeOfARun(id, h, ApplyAll(base, log'[..n]))
    {
      if n <= |log| {
        assert log'[..n] == log[..n];
      } else {
        assert log'[..n] == log + ws[..n - |log|];
        PrefixIsARun(id, h, base, log, s, n - |log|);
      }
    }
  }

  /** One step of any kind, on a directory opened on files a run has left (as after a restart) and worked on since.
      It does what the run says, and the files are the outcome of a run and meet the lifecycle invariant, for some
      attribution of their history, after every single write. */
  method PerformStep(dir: ProcDir, h: Helper, s: Step)
    requires dir.Valid() && ThroughRuns(dir.id, h, dir.base, dir.log)
    modifies dir
    ensures Wrote(dir, old(dir.disk), old(dir.log), StepWrites(dir.id, h, old(dir.disk), s))
    ensures ThroughRuns(dir.id, h, dir.base, dir.log) && ThroughInv(dir.id, h, dir.base, dir.log)
  {
    hide StepWrites, ThroughRuns, ThroughInv, ApplyAll;
    StepGoesThroughRuns(dir.id, h, dir.base, dir.log, s);
    CarryOut(dir, h, s);
    RunsMeetInv(dir.id, h, dir.base, dir.log);
  }
}

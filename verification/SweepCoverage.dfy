/** Which blocks the scans for shortlist and winner events have handled. They take their cursor from the same state as the
    discovery, but look at the chain later and never check an anchor themselves. */
module SweepCoverage {
  import opened Basics
  import opened Chain
  import opened LogPaging
  import opened Monitor
  import opened Coverage

  /** Blocks whose events a scan has handled, with their heights. */
  type Handled = set<(nat, Block)>

  ghost predicate AllHandled(blocks: seq<Block>, start: nat, handled: Handled) {
    forall n: nat :: start < n < |blocks| ==> (n, blocks[n]) in handled
  }

  /** The blocks of `c` from `lo` to `hi`. */
  function BlocksIn(c: seq<Block>, lo: nat, hi: int): Handled
    requires hi < |c|
  {
    set n: nat | lo <= n <= hi :: (n, c[n])
  }

  /** The scan read its logs and handled its events. */
  predicate SweepScanned(ms: Cursors, key: Key, s: Sweep) {
    && s.agentKnown && s.headOk && ScanFrom(s.chain, ms, key) <= SafeTo(s.chain)
    && Paged(s.chain, ScanFrom(s.chain, ms, key), SafeTo(s.chain), s.replies, 0).Some? && s.eventsOk
  }

  /** The scan went through without an error, with or without blocks to scan. */
  predicate SweepCompleted(ms: Cursors, key: Key, s: Sweep) {
    s.agentKnown && Swept(ms, key, s).1
  }

  /** What is handled after a scan: by `PagedReadsAreExact` the events of the blocks up to the last one delivered. */
  function HandledBy(ms: Cursors, key: Key, s: Sweep, handled: Handled): Handled {
    if SweepScanned(ms, key, s)
    then handled + BlocksIn(s.chain, ScanFrom(s.chain, ms, key), LastDelivered(ScanFrom(s.chain, ms, key), SafeTo(s.chain), s.replies, 0))
    else handled
  }

  /** The scan resumes no later than the first unseen block and loses no tail, or there is nothing unseen to scan. */
  predicate SweepIsGapless(ms: Cursors, key: Key, s: Sweep, base: seq<Block>, start: nat) {
    || SafeTo(s.chain) < NextUnseen(base, s.chain, start)
    || (ScanFrom(s.chain, ms, key) <= NextUnseen(base, s.chain, start)
        && !SkipsTail(ScanFrom(s.chain, ms, key), SafeTo(s.chain), s.replies, 0))
  }

  lemma SweepMovesTheCursor(ms: Cursors, key: Key, s: Sweep)
    requires SweepCompleted(ms, key, s)
    ensures CursorOf(Swept(ms, key, s).0, key) == SafeTo(s.chain)
    ensures SweepScanned(ms, key, s) <==> ScanFrom(s.chain, ms, key) <= SafeTo(s.chain)
  {
    hide Paged, SetAnchor;
  }

  lemma GaplessSweepHandlesAll(ms: Cursors, key: Key, s: Sweep, base: seq<Block>, start: nat, handled: Handled)
    requires AllHandled(base, start, handled) && SweepIsGapless(ms, key, s, base, start)
    requires SweepScanned(ms, key, s) || SweepCompleted(ms, key, s)
    ensures AllHandled(s.chain[..SafeTo(s.chain) + 1], start, HandledBy(ms, key, s, handled))
  {
    hide Paged, Swept, SkipsTail;
    if !SweepScanned(ms, key, s) {
      SweepMovesTheCursor(ms, key, s);
    }
    var c, k := s.chain, Shared(base, s.chain);
    forall n: nat | start < n < SafeTo(c) + 1
      ensures (n, c[n]) in HandledBy(ms, key, s, handled)
    {
      if n < k {
        assert base[..k][n] == c[..k][n];
        assert (n, base[n]) in handled;
      }
    }
  }

  // ---- the condition is exact ----

  /** The same scan on another chain. */
  function OnChain(s: Sweep, c: Chain): Sweep {
    s.(chain := c)
  }

  /** The chains that differ from the one scanned only in blocks nobody has seen. */
  ghost predicate PossibleChain(c: Chain, c': Chain, unseen: nat) {
    |c'| == |c| && forall n :: 0 <= n < unseen && n < |c| ==> c'[n] == c[n]
  }

  lemma {:induction false} SomeFreshNonce(handled: Handled) returns (nonce: nat)
    ensures forall p :: p in handled ==> p.1.nonce < nonce
    decreases |handled|
  {
    if handled == {} {
      nonce := 0;
    } else {
      var p :| p in handled;
      var above := SomeFreshNonce(handled - {p});
      nonce := if p.1.nonce < above then above else p.1.nonce + 1;
      assert forall q :: q in handled ==> q == p || q in handled - {p};
    }
  }

  lemma SweepGoesTheSameWay(ms: Cursors, key: Key, s: Sweep, c': Chain)
    requires |c'| == |s.chain|
    ensures SweepScanned(ms, key, OnChain(s, c')) <==> SweepScanned(ms, key, s)
    ensures SweepCompleted(ms, key, OnChain(s, c')) <==> SweepCompleted(ms, key, s)
  {
    hide Paged, SetAnchor;
    if ScanFrom(s.chain, ms, key) <= SafeTo(s.chain) {
      ContentDoesNotMatter(s.chain, c', ScanFrom(s.chain, ms, key), SafeTo(s.chain), s.replies, 0);
    }
  }

  /** With a gap, some possible chain has a block that the completed scan passes over. */
  lemma SweepGapLosesABlock(ms: Cursors, key: Key, s: Sweep, base: seq<Block>, start: nat, handled: Handled) returns (c': Chain)
    requires SweepCompleted(ms, key, s) && !SweepIsGapless(ms, key, s, base, start)
    ensures PossibleChain(s.chain, c', NextUnseen(base, s.chain, start)) && SweepCompleted(ms, key, OnChain(s, c'))
    ensures !AllHandled(c'[..SafeTo(s.chain) + 1], start, HandledBy(ms, key, OnChain(s, c'), handled))
  {
    hide Paged, Swept, SkipsTail, Shared;
    var g, from, safe := NextUnseen(base, s.chain, start), ScanFrom(s.chain, ms, key), SafeTo(s.chain);
    var n: nat := if from > g then g else safe;
    var nonce := SomeFreshNonce(handled);
    c' := s.chain[n := Block(nonce, [])];
    SweepGoesTheSameWay(ms, key, s, c');
    SweepMovesTheCursor(ms, key, s);
    var after := HandledBy(ms, key, OnChain(s, c'), handled);
    assert (n, c'[n]) !in after;
    assert c'[..safe + 1][n] == c'[n];
  }

  lemma PossibleChainStaysGapless(ms: Cursors, key: Key, s: Sweep, base: seq<Block>, start: nat, c': Chain)
    requires PossibleChain(s.chain, c', NextUnseen(base, s.chain, start)) && SweepIsGapless(ms, key, s, base, start)
    ensures SweepIsGapless(ms, key, OnChain(s, c'), base, start)
  {
    hide Shared, SkipsTail;
    SharedGrows(base, s.chain, c', NextUnseen(base, s.chain, start));
  }

  /** A completed scan is sure to have handled every block up to its cursor, whatever the unseen blocks are, exactly when
      it is gapless. */
  lemma SweepIsSafeExactly(ms: Cursors, key: Key, s: Sweep, base: seq<Block>, start: nat, handled: Handled)
    requires AllHandled(base, start, handled) && SweepCompleted(ms, key, s)
    ensures SweepIsGapless(ms, key, s, base, start) <==>
            forall c': Chain :: PossibleChain(s.chain, c', NextUnseen(base, s.chain, start)) ==>
              AllHandled(c'[..SafeTo(s.chain) + 1], start, HandledBy(ms, key, OnChain(s, c'), handled))
  {
    hide AllHandled, HandledBy, SweepCompleted, SweepScanned, SweepIsGapless;
    if SweepIsGapless(ms, key, s, base, start) {
      forall c': Chain | PossibleChain(s.chain, c', NextUnseen(base, s.chain, start))
        ensures AllHandled(c'[..SafeTo(s.chain) + 1], start, HandledBy(ms, key, OnChain(s, c'), handled))
      {
        SweepGoesTheSameWay(ms, key, s, c');
        PossibleChainStaysGapless(ms, key, s, base, start, c');
        GaplessSweepHandlesAll(ms, key, OnChain(s, c'), base, start, handled);
      }
    } else {
      var c' := SweepGapLosesABlock(ms, key, s, base, start, handled);
    }
  }

  // ---- runs ----

  /** What the scans of one kind have handled over a run, and the blocks behind their cursor in memory and saved. */
  datatype Progress = Progress(handled: Handled, base: seq<Block>, savedBase: seq<Block>)

  predicate Sweeps(key: Key) {
    key == ShortlistKey || key == WinnerKey
  }

  /** The cursors with which the scan of one kind starts in a cycle, if the cycle gets there. */
  function AtSweep(w: World, s: Step, key: Key): Option<Cursors>
    requires s.Cycle? && Sweeps(key)
  {
    var d := Found(w, s.f);
    if !d.completed then None
    else if key == ShortlistKey then Some(d.ms)
    else
      var (afterShortlists, ok) := Swept(d.ms, ShortlistKey, s.shortlists);
      if ok then Some(afterShortlists) else None
  }

  function SweepOf(s: Step, key: Key): Sweep
    requires s.Cycle? && Sweeps(key)
  {
    if key == ShortlistKey then s.shortlists else s.winners
  }

  /** The cycle ran the scan as far as handling its events, or found nothing to scan. */
  predicate SweepReached(w: World, s: Step, key: Key)
    requires Sweeps(key)
  {
    s.Cycle? && AtSweep(w, s, key).Some?
    && (SweepScanned(AtSweep(w, s, key).value, key, SweepOf(s, key)) || SweepCompleted(AtSweep(w, s, key).value, key, SweepOf(s, key)))
  }

  function NextProgress(w: World, s: Step, key: Key, p: Progress): Progress
    requires Sweeps(key)
  {
    match s
    case ChainMoves(_) => p
    case Restart => p.(base := p.savedBase)
    case Cycle(f, shortlists, winners, ending) =>
      var saved := CycleResult(w.chain, w.memory, w.records, f, shortlists, winners, ending).2;
      var at := AtSweep(w, s, key);
      var sweep := SweepOf(s, key);
      if at.Some? && SweepScanned(at.value, key, sweep) then
        var base := sweep.chain[..SafeTo(sweep.chain) + 1];
        Progress(HandledBy(at.value, key, sweep, p.handled), base, if saved then base else p.savedBase)
      else p.(savedBase := if saved then p.base else p.savedBase)
  }

  function ProgressAfter(w: World, run: seq<Step>, key: Key): Progress
    requires Sweeps(key)
  {
    if run == [] then Progress({}, [], [])
    else
      var front := run[..|run| - 1];
      NextProgress(After(w, front), run[|run| - 1], key, ProgressAfter(w, front, key))
  }

  ghost predicate GaplessSweeps(w: World, run: seq<Step>, key: Key, start: nat)
    requires Sweeps(key)
  {
    forall k :: 0 <= k < |run| && SweepReached(After(w, run[..k]), run[k], key) ==>
      SweepIsGapless(AtSweep(After(w, run[..k]), run[k], key).value, key, SweepOf(run[k], key),
                     ProgressAfter(w, run[..k], key).base, start)
  }

  ghost predicate BasesAreHandled(p: Progress, start: nat) {
    AllHandled(p.base, start, p.handled) && AllHandled(p.savedBase, start, p.handled)
  }

  lemma NextKeepsHandled(w: World, s: Step, key: Key, p: Progress, start: nat)
    requires Sweeps(key) && BasesAreHandled(p, start)
    requires SweepReached(w, s, key) ==> SweepIsGapless(AtSweep(w, s, key).value, key, SweepOf(s, key), p.base, start)
    ensures BasesAreHandled(NextProgress(w, s, key, p), start)
    ensures SweepReached(w, s, key) ==>
              var c := SweepOf(s, key).chain; AllHandled(c[..SafeTo(c) + 1], start, NextProgress(w, s, key, p).handled)
  {
    hide SweepIsGapless, SweepScanned, SweepCompleted, CycleResult, Swept, Discover;
    if SweepReached(w, s, key) {
      GaplessSweepHandlesAll(AtSweep(w, s, key).value, key, SweepOf(s, key), p.base, start, p.handled);
    }
  }

  lemma {:induction false} RunKeepsHandled(w: World, run: seq<Step>, key: Key, start: nat)
    requires Sweeps(key) && GaplessSweeps(w, run, key, start)
    ensures BasesAreHandled(ProgressAfter(w, run, key), start)
  {
    hide After, NextProgress, SweepReached, SweepIsGapless, AtSweep;
    if run != [] {
      var front := run[..|run| - 1];
      assert forall k :: 0 <= k < |front| ==> front[..k] == run[..k];
      RunKeepsHandled(w, front, key, start);
      NextKeepsHandled(After(w, front), run[|run| - 1], key, ProgressAfter(w, front, key), start);
    }
  }

  /** In every run whose scans of one kind are gapless, each of them that goes through has handled, then or earlier, every
      block of the chain it looked at above `start` and up to its cursor. */
  lemma SweepsHandleEveryBlock(w: World, run: seq<Step>, key: Key, start: nat, k: nat)
    requires Sweeps(key) && GaplessSweeps(w, run, key, start)
    requires k < |run| && SweepReached(After(w, run[..k]), run[k], key)
    ensures var c := SweepOf(run[k], key).chain;
            AllHandled(c[..SafeTo(c) + 1], start, ProgressAfter(w, run[..k + 1], key).handled)
  {
    hide After, NextProgress, SweepReached, SweepIsGapless, AllHandled, AtSweep;
    var before := run[..k];
    assert run[..k + 1][..k] == before;
    assert forall j :: 0 <= j < |before| ==> before[..j] == run[..j];
    RunKeepsHandled(w, before, key, start);
    NextKeepsHandled(After(w, before), run[k], key, ProgressAfter(w, before, key), start);
  }

  /** A reorganisation between the check of the anchors and the scan goes unnoticed: the cursor stays above the fork. */
  lemma LateReorganisationLeavesAGap(s: Sweep, base: seq<Block>, anchors: seq<Anchor>)
    requires Head(s.chain) == 4000 && |base| == 3901 && Shared(base, s.chain) == 3850 && s.agentKnown && s.headOk
    ensures !SweepIsGapless(Cursors(3900, 3900, 3900, 3950, anchors), ShortlistKey, s, base, 50)
  {
  }
}

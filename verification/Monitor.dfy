/** The monitor's event cursors: anchors, rewinding after reorganisations, scanning, and what reaches the records. */
module Monitor {
  import opened Basics
  import opened Chain
  import opened LogPaging

  const SCAN_BLOCKS: nat := 1000
  const REORG_SAFETY_BLOCKS: nat := 24

  datatype Key = ProcurementKey | ShortlistKey | WinnerKey

  /** Hash of a cursor block at the time the cursor got there. */
  datatype Anchor = Anchor(key: Key, block: nat, hash: Option<Hash>)

  /** What prime_monitor_state.json remembers between cycles. Anchors are in insertion order, one per key. */
  datatype Cursors = Cursors(procurement: nat, shortlist: nat, winner: nat, observedHead: nat, anchors: seq<Anchor>)

  /** State directories by procurement id, each with the job it was created for. */
  type Records = map<ProcurementId, string>

  // ---- specification: one function per step ----

  function Below(n: nat, distance: nat): nat {
    if n >= distance then n - distance else 0
  }

  function SafeTo(c: Chain): (n: nat)
    ensures n < |c|
  {
    Below(Head(c), REORG_SAFETY_BLOCKS)
  }

  function RewindTarget(a: Anchor): nat {
    Below(a.block, REORG_SAFETY_BLOCKS + SCAN_BLOCKS)
  }

  function CursorOf(ms: Cursors, key: Key): nat {
    match key
    case ProcurementKey => ms.procurement
    case ShortlistKey => ms.shortlist
    case WinnerKey => ms.winner
  }

  function WithCursor(ms: Cursors, key: Key, n: nat): Cursors {
    match key
    case ProcurementKey => ms.(procurement := n)
    case ShortlistKey => ms.(shortlist := n)
    case WinnerKey => ms.(winner := n)
  }

  /** An anchor without a block or a hash is not looked at. */
  predicate Checkable(a: Anchor) {
    a.block > 0 && a.hash.Some?
  }

  predicate Reorganised(c: Chain, a: Anchor) {
    Checkable(a) && BlockHash(c, a.block) != a.hash
  }

  /** Checks the anchors in order; the read of a block hash fails once `hashReads` of them have succeeded. */
  function Reconcile(c: Chain, ms: Cursors, todo: seq<Anchor>, hashReads: nat): (Cursors, bool)
    decreases |todo|
  {
    if todo == [] then (ms, true)
    else if !Checkable(todo[0]) then Reconcile(c, ms, todo[1..], hashReads)
    else if hashReads == 0 then (ms, false)
    else
      var next := if Reorganised(c, todo[0]) then WithCursor(ms, todo[0].key, RewindTarget(todo[0])) else ms;
      Reconcile(c, next, todo[1..], hashReads - 1)
  }

  function HeadTarget(c: Chain): nat {
    Below(SafeTo(c), SCAN_BLOCKS)
  }

  predicate HeadRolledBack(c: Chain, ms: Cursors) {
    ms.observedHead > Head(c)
  }

  /** A head lower than the one last seen assigns all three cursors. */
  function ObserveHead(c: Chain, ms: Cursors): Cursors {
    var target := HeadTarget(c);
    if HeadRolledBack(c, ms)
    then ms.(procurement := target, shortlist := target, winner := target, observedHead := Head(c))
    else ms.(observedHead := Head(c))
  }

  /** First block to scan; a cursor of zero stands for no cursor. */
  function ScanFrom(c: Chain, ms: Cursors, key: Key): nat {
    if CursorOf(ms, key) > 0 then CursorOf(ms, key) + 1 else Below(SafeTo(c), SCAN_BLOCKS)
  }

  function SetAnchor(anchors: seq<Anchor>, a: Anchor): seq<Anchor> {
    if anchors == [] then [a]
    else if anchors[0].key == a.key then [a] + anchors[1..]
    else [anchors[0]] + SetAnchor(anchors[1..], a)
  }

  /** The anchor is left alone at block zero; otherwise its hash is read, which may fail. */
  function UpdatedAnchor(c: Chain, ms: Cursors, key: Key, block: nat, ok: bool): (Cursors, bool) {
    if block == 0 then (ms, true)
    else if !ok then (ms, false)
    else (ms.(anchors := SetAnchor(ms.anchors, Anchor(key, block, BlockHash(c, block)))), true)
  }

  function Track(records: Records, events: seq<Created>): Records {
    if events == [] then records
    else
      var before := Track(records, events[..|events| - 1]);
      var e := events[|events| - 1];
      if e.id in before then before else before[e.id := e.jobId]
  }

  /** What goes wrong during one discovery, if anything: the head read, a hash read, a log request, handling an event
      after `handled` of them, the read for the new anchor. */
  datatype Faults = Faults(headOk: bool, hashReads: nat, replies: seq<Reply>, handled: nat, anchorOk: bool)

  /** State after a discovery; `scanned` says that every event read was handled, `completed` that nothing was thrown. */
  datatype Discovery = Discovery(ms: Cursors, records: Records, scanned: bool, completed: bool)

  function Aligned(c: Chain, ms: Cursors, hashReads: nat): (Cursors, bool) {
    var (reconciled, ok) := Reconcile(c, ms, ms.anchors, hashReads);
    if ok then (ObserveHead(c, reconciled), true) else (reconciled, false)
  }

  function Discover(c: Chain, ms: Cursors, records: Records, f: Faults): Discovery {
    if !f.headOk then Discovery(ms, records, false, false)
    else
      var (aligned, ok) := Aligned(c, ms, f.hashReads);
      if !ok then Discovery(aligned, records, false, false)
      else if ScanFrom(c, aligned, ProcurementKey) > SafeTo(c)
      then Discovery(aligned.(procurement := SafeTo(c)), records, false, true)
      else
        match Paged(c, ScanFrom(c, aligned, ProcurementKey), SafeTo(c), f.replies, 0)
        case None => Discovery(aligned, records, false, false)
        case Some(events) =>
          if f.handled < |events| then Discovery(aligned, Track(records, events[..f.handled]), false, false)
          else
            var (anchored, done) := UpdatedAnchor(c, aligned.(procurement := SafeTo(c)), ProcurementKey, SafeTo(c), f.anchorOk);
            Discovery(anchored, Track(records, events), true, done)
  }

  /** The scan for shortlist or winner events, as far as the cursors go; what the events do to a procurement is
      `MonitorRefresh`. */
  datatype Sweep = Sweep(chain: Chain, agentKnown: bool, headOk: bool, replies: seq<Reply>, eventsOk: bool, anchorOk: bool)

  function Swept(ms: Cursors, key: Key, s: Sweep): (Cursors, bool) {
    var c := s.chain;
    if !s.agentKnown then (ms, true)
    else if !s.headOk then (ms, false)
    else if ScanFrom(c, ms, key) > SafeTo(c) then (WithCursor(ms, key, SafeTo(c)), true)
    else if Paged(c, ScanFrom(c, ms, key), SafeTo(c), s.replies, 0).None? || !s.eventsOk then (ms, false)
    else UpdatedAnchor(c, WithCursor(ms, key, SafeTo(c)), key, SafeTo(c), s.anchorOk)
  }

  // ---- what has to go well ----

  /** How many block hashes the check of the anchors reads. */
  function Checks(todo: seq<Anchor>): nat {
    if todo == [] then 0 else (if Checkable(todo[0]) then 1 else 0) + Checks(todo[1..])
  }

  lemma {:induction false} ReconcileEnds(c: Chain, ms: Cursors, todo: seq<Anchor>, hashReads: nat)
    ensures Reconcile(c, ms, todo, hashReads).1 <==> Checks(todo) <= hashReads
    decreases |todo|
  {
    if todo != [] && !Checkable(todo[0]) {
      ReconcileEnds(c, ms, todo[1..], hashReads);
    } else if todo != [] && hashReads > 0 {
      var next := if Reorganised(c, todo[0]) then WithCursor(ms, todo[0].key, RewindTarget(todo[0])) else ms;
      ReconcileEnds(c, next, todo[1..], hashReads - 1);
    }
  }

  /** First block the discovery scans, given that its reads succeed. */
  function Resume(c: Chain, ms: Cursors, f: Faults): nat {
    ScanFrom(c, Aligned(c, ms, f.hashReads).0, ProcurementKey)
  }

  /** Every request of the scan is got over, every event it delivers is handled, and the new anchor can be read. */
  predicate ScanSucceeds(c: Chain, from: nat, replies: seq<Reply>, handled: nat, anchorOk: bool) {
    && ReadReturns(Length(from, SafeTo(c)), replies)
    && |EventsIn(c, from, LastDelivered(from, SafeTo(c), replies, 0))| <= handled
    && (SafeTo(c) == 0 || anchorOk)
  }

  /** No read and no event handling of the discovery fails. */
  predicate DiscoveryMeetsNoFailure(c: Chain, ms: Cursors, f: Faults) {
    && f.headOk && Checks(ms.anchors) <= f.hashReads
    && (Resume(c, ms, f) <= SafeTo(c) ==> ScanSucceeds(c, Resume(c, ms, f), f.replies, f.handled, f.anchorOk))
  }

  lemma DiscoveryCompletesExactly(c: Chain, ms: Cursors, records: Records, f: Faults)
    ensures Discover(c, ms, records, f).completed <==> DiscoveryMeetsNoFailure(c, ms, f)
  {
    hide Reconcile, Paged, Track, SetAnchor, EventsIn, ReadReturns, LastDelivered, ObserveHead;
    ReconcileEnds(c, ms, ms.anchors, f.hashReads);
    var from := Resume(c, ms, f);
    ReturnsExactly(c, from, SafeTo(c), f.replies);
    if Paged(c, from, SafeTo(c), f.replies, 0).Some? {
      PagedReadsAreExact(c, from, SafeTo(c), f.replies, 0);
    }
  }

  /** No read and no event handling of the scan fails. */
  predicate SweepMeetsNoFailure(ms: Cursors, key: Key, s: Sweep) {
    var from := ScanFrom(s.chain, ms, key);
    s.agentKnown ==>
      && s.headOk
      && (from <= SafeTo(s.chain) ==>
            ReadReturns(Length(from, SafeTo(s.chain)), s.replies) && s.eventsOk && (SafeTo(s.chain) == 0 || s.anchorOk))
  }

  lemma {:induction false} AnchorIsSet(anchors: seq<Anchor>, a: Anchor)
    ensures a in SetAnchor(anchors, a)
    ensures forall b :: b in anchors && b.key != a.key ==> b in SetAnchor(anchors, a)
  {
    if anchors != [] && anchors[0].key != a.key {
      AnchorIsSet(anchors[1..], a);
    }
  }

  /** A scan goes through exactly when nothing in it fails; it leaves its cursor at the safe block, anchored there if it
      scanned anything, and never touches another cursor. */
  lemma SweepCompletesExactly(ms: Cursors, key: Key, s: Sweep)
    ensures Swept(ms, key, s).1 <==> SweepMeetsNoFailure(ms, key, s)
    ensures SweepMeetsNoFailure(ms, key, s) && s.agentKnown ==> CursorOf(Swept(ms, key, s).0, key) == SafeTo(s.chain)
    ensures SweepMeetsNoFailure(ms, key, s) && s.agentKnown && 0 < SafeTo(s.chain) && ScanFrom(s.chain, ms, key) <= SafeTo(s.chain) ==>
              Anchor(key, SafeTo(s.chain), BlockHash(s.chain, SafeTo(s.chain))) in Swept(ms, key, s).0.anchors
    ensures forall other: Key :: other != key || !s.agentKnown ==> CursorOf(Swept(ms, key, s).0, other) == CursorOf(ms, other)
  {
    hide Paged, SetAnchor, ReadReturns;
    AnchorIsSet(ms.anchors, Anchor(key, SafeTo(s.chain), BlockHash(s.chain, SafeTo(s.chain))));
    ReturnsExactly(s.chain, ScanFrom(s.chain, ms, key), SafeTo(s.chain), s.replies);
  }

  /** How the end of a cycle goes: listing the procurements to refresh can fail, and so can writing the saved state.
      Errors while refreshing one of them are caught there. */
  datatype Ending = Ending(listOk: bool, saveOk: bool)

  /** One cycle: its last component says whether it saved the cursors. */
  function CycleResult(c: Chain, ms: Cursors, records: Records, f: Faults, shortlists: Sweep, winners: Sweep, ending: Ending)
    : (Discovery, Cursors, bool)
  {
    var d := Discover(c, ms, records, f);
    if !d.completed then (d, d.ms, false)
    else
      var (afterShortlists, ok1) := Swept(d.ms, ShortlistKey, shortlists);
      if !ok1 then (d, afterShortlists, false)
      else
        var (afterWinners, ok2) := Swept(afterShortlists, WinnerKey, winners);
        (d, afterWinners, ok2 && ending.listOk && ending.saveOk)
  }

  /** A cycle saves exactly when nothing in it fails: discovery, both scans, the listing of states, the save itself. */
  lemma CycleSavesExactly(c: Chain, ms: Cursors, records: Records, f: Faults, shortlists: Sweep, winners: Sweep, ending: Ending)
    ensures var afterDiscovery := Discover(c, ms, records, f).ms;
            var afterShortlists := Swept(afterDiscovery, ShortlistKey, shortlists).0;
            CycleResult(c, ms, records, f, shortlists, winners, ending).2 <==>
              && DiscoveryMeetsNoFailure(c, ms, f)
              && SweepMeetsNoFailure(afterDiscovery, ShortlistKey, shortlists)
              && SweepMeetsNoFailure(afterShortlists, WinnerKey, winners)
              && ending.listOk && ending.saveOk
  {
    hide Discover, Swept, DiscoveryMeetsNoFailure, SweepMeetsNoFailure;
    DiscoveryCompletesExactly(c, ms, records, f);
    var afterDiscovery := Discover(c, ms, records, f).ms;
    SweepCompletesExactly(afterDiscovery, ShortlistKey, shortlists);
    SweepCompletesExactly(Swept(afterDiscovery, ShortlistKey, shortlists).0, WinnerKey, winners);
  }

  // ---- the monitor ----

  class PrimeMonitor {
    var lastProcurementBlock: nat
    var lastShortlistBlock: nat
    var lastWinnerBlock: nat
    var lastObservedHead: nat
    var cursorAnchors: seq<Anchor>
    var records: Records
    var savedState: Cursors

    function View(): Cursors
      reads this
    {
      Cursors(lastProcurementBlock, lastShortlistBlock, lastWinnerBlock, lastObservedHead, cursorAnchors)
    }

    /** A monitor starts from the state it last saved. */
    constructor (saved: Cursors, records: Records)
      ensures View() == saved == savedState && this.records == records
    {
      lastProcurementBlock := saved.procurement;
      lastShortlistBlock := saved.shortlist;
      lastWinnerBlock := saved.winner;
      lastObservedHead := saved.observedHead;
      cursorAnchors := saved.anchors;
      savedState := saved;
      this.records := records;
    }

    method SetCursor(key: Key, n: nat)
      modifies this
      ensures View() == WithCursor(old(View()), key, n)
      ensures records == old(records) && savedState == old(savedState)
    {
      match key
      case ProcurementKey => lastProcurementBlock := n;
      case ShortlistKey => lastShortlistBlock := n;
      case WinnerKey => lastWinnerBlock := n;
    }

    method ReconcileReorgCursors(c: Chain, hashReads: nat) returns (ok: bool)
      modifies this
      ensures (View(), ok) == Reconcile(c, old(View()), old(cursorAnchors), hashReads)
      ensures records == old(records) && savedState == old(savedState)
    {
      var anchors := cursorAnchors;
      var left := hashReads;
      var i := 0;
      while i < |anchors|
        invariant i <= |anchors|
        invariant Reconcile(c, View(), anchors[i..], left) == Reconcile(c, old(View()), anchors, hashReads)
        invariant records == old(records) && savedState == old(savedState)
      {
        var anchor := anchors[i];
        assert anchors[i..][1..] == anchors[i + 1..];
        i := i + 1;
        if anchor.block == 0 || anchor.hash.None? {
          continue;
        }
        if left == 0 {
          return false;
        }
        left := left - 1;
        var currentHash := BlockHash(c, anchor.block);
        if currentHash == anchor.hash {
          continue;
        }
        SetCursor(anchor.key, RewindTarget(anchor));
      }
      ok := true;
    }

    method UpdateCursorAnchor(c: Chain, key: Key, block: nat, readOk: bool) returns (ok: bool)
      modifies this
      ensures (View(), ok) == UpdatedAnchor(c, old(View()), key, block, readOk)
      ensures records == old(records) && savedState == old(savedState)
    {
      if block == 0 {
        return true;
      }
      if !readOk {
        return false;
      }
      cursorAnchors := SetAnchor(cursorAnchors, Anchor(key, block, BlockHash(c, block)));
      ok := true;
    }

    /** getOrCreateProcState for each event in turn, until handling one fails. */
    method TrackEvents(events: seq<Created>, handled: nat) returns (ok: bool)
      modifies this`records
      ensures ok == (|events| <= handled)
      ensures records == Track(old(records), if ok then events else events[..handled])
    {
      var i := 0;
      while i < |events|
        invariant i <= |events| && i <= handled
        invariant records == Track(old(records), events[..i])
      {
        if i == handled {
          return false;
        }
        var evt := events[i];
        assert events[..i + 1][..i] == events[..i];
        if evt.id !in records {
          records := records[evt.id := evt.jobId];
        }
        i := i + 1;
      }
      assert events[..|events|] == events;
      ok := true;
    }

    method DiscoverNewProcurements(c: Chain, f: Faults) returns (completed: bool)
      modifies this
      ensures var d := Discover(c, old(View()), old(records), f);
              View() == d.ms && records == d.records && completed == d.completed
      ensures completed <==> DiscoveryMeetsNoFailure(c, old(View()), f)
      ensures savedState == old(savedState)
    {
      hide Reconcile, Paged, Track, SetAnchor, DiscoveryMeetsNoFailure, ReadReturns, LastDelivered, EventsIn;
      DiscoveryCompletesExactly(c, View(), records, f);
      if !f.headOk {
        return false;
      }
      var currentBlock := Head(c);
      var safeToBlock := Below(currentBlock, REORG_SAFETY_BLOCKS);
      var reconciled := ReconcileReorgCursors(c, f.hashReads);
      if !reconciled {
        return false;
      }
      if lastObservedHead > currentBlock {
        var rewindTo := Below(safeToBlock, SCAN_BLOCKS);
        lastProcurementBlock := rewindTo;
        lastShortlistBlock := rewindTo;
        lastWinnerBlock := rewindTo;
      }
      lastObservedHead := currentBlock;
      var fromBlock := if lastProcurementBlock > 0 then lastProcurementBlock + 1 else Below(safeToBlock, SCAN_BLOCKS);
      if fromBlock > safeToBlock {
        lastProcurementBlock := safeToBlock;
        return true;
      }
      var events := GetLogsPaginated(c, fromBlock, safeToBlock, f.replies);
      if events.None? {
        return false;
      }
      var tracked := TrackEvents(events.value, f.handled);
      if !tracked {
        return false;
      }
      lastProcurementBlock := safeToBlock;
      completed := UpdateCursorAnchor(c, ProcurementKey, safeToBlock, f.anchorOk);
    }

    /** detectShortlistEvents and detectWinnerDesignations move their cursors the same way. */
    method SweepEvents(key: Key, s: Sweep) returns (ok: bool)
      modifies this
      ensures (View(), ok) == Swept(old(View()), key, s)
      ensures ok <==> SweepMeetsNoFailure(old(View()), key, s)
      ensures records == old(records) && savedState == old(savedState)
    {
      hide Paged, SweepMeetsNoFailure, ReadReturns, LastDelivered, EventsIn;
      SweepCompletesExactly(View(), key, s);
      if !s.agentKnown {
        return true;
      }
      if !s.headOk {
        return false;
      }
      var safeToBlock := SafeTo(s.chain);
      var fromBlock := ScanFrom(s.chain, View(), key);
      if fromBlock > safeToBlock {
        SetCursor(key, safeToBlock);
        return true;
      }
      var events := GetLogsPaginated(s.chain, fromBlock, safeToBlock, s.replies);
      if events.None? || !s.eventsOk {
        return false;
      }
      SetCursor(key, safeToBlock);
      ok := UpdateCursorAnchor(s.chain, key, safeToBlock, s.anchorOk);
    }

    method RunCycle(c: Chain, f: Faults, shortlists: Sweep, winners: Sweep, ending: Ending) returns (success: bool)
      modifies this
      ensures var (d, ms, saved) := CycleResult(c, old(View()), old(records), f, shortlists, winners, ending);
              View() == ms && records == d.records && success == saved
              && savedState == (if saved then ms else old(savedState))
    {
      hide Discover, Swept;
      var discovered := DiscoverNewProcurements(c, f);
      if !discovered {
        return false;
      }
      var shortlisted := SweepEvents(ShortlistKey, shortlists);
      if !shortlisted {
        return false;
      }
      var designated := SweepEvents(WinnerKey, winners);
      if !designated || !ending.listOk {
        return false;
      }
      if !ending.saveOk {
        return false;
      }
      savedState := View();
      success := true;
    }
  }
}

/** Which creation events end up with a record: exactly when one discovery misses none, and over whole runs of chain
    growth, reorganisations, failed cycles and restarts. */
module Coverage {
  import opened Basics
  import opened Chain
  import opened LogPaging
  import opened Monitor

  /** Every creation event above block `start` of these blocks has a record. */
  ghost predicate Covered(blocks: seq<Block>, start: nat, records: Records) {
    forall n: nat, e :: start < n < |blocks| && e in blocks[n].created ==> e.id in records
  }

  // ---- tracking ----

  /** Tracking adds one record per new id, takes the job of its first event, and touches no existing record. */
  lemma {:induction false} TrackingIsExact(records: Records, events: seq<Created>, id: ProcurementId)
    ensures id in Track(records, events) <==> id in records || exists k :: 0 <= k < |events| && events[k].id == id
    ensures id in records ==> Track(records, events)[id] == records[id]
    ensures forall k :: 0 <= k < |events| && events[k].id == id && id !in records && (forall j :: 0 <= j < k ==> events[j].id != id)
              ==> Track(records, events)[id] == events[k].jobId
  {
    if events != [] {
      var front := events[..|events| - 1];
      TrackingIsExact(records, front, id);
      assert forall k :: 0 <= k < |front| ==> front[k] == events[k];
    }
  }

  lemma TrackingCovers(records: Records, c: seq<Block>, lo: nat, hi: int, n: nat, e: Created)
    requires hi < |c| && lo <= n <= hi && e in c[n].created
    ensures e.id in Track(records, EventsIn(c, lo, hi))
  {
    EventsInAre(c, lo, hi, e);
    var events := EventsIn(c, lo, hi);
    var k :| 0 <= k < |events| && events[k] == e;
    TrackingIsExact(records, events, e.id);
  }

  lemma CoverageGrows(blocks: seq<Block>, start: nat, records: Records, events: seq<Created>)
    requires Covered(blocks, start, records)
    ensures Covered(blocks, start, Track(records, events))
  {
    forall n: nat, e | start < n < |blocks| && e in blocks[n].created
      ensures e.id in Track(records, events)
    {
      TrackingIsExact(records, events, e.id);
    }
  }

  // ---- one discovery ----

  /** First block not known to be covered when `base` has been scanned. */
  function NextUnseen(base: seq<Block>, c: Chain, start: nat): nat {
    if Shared(base, c) > start then Shared(base, c) else start + 1
  }

  /** The scan resumes no later than the first unseen block and loses no tail, or there is nothing unseen to scan. */
  predicate Gapless(c: Chain, ms: Cursors, base: seq<Block>, start: nat, f: Faults) {
    || SafeTo(c) < NextUnseen(base, c, start)
    || (Resume(c, ms, f) <= NextUnseen(base, c, start) && !SkipsTail(Resume(c, ms, f), SafeTo(c), f.replies, 0))
  }

  /** What a discovery that got through its events has done. */
  lemma ScannedDiscovery(c: Chain, ms: Cursors, records: Records, f: Faults)
    requires Discover(c, ms, records, f).scanned || Discover(c, ms, records, f).completed
    ensures f.headOk && Aligned(c, ms, f.hashReads).1
    ensures Discover(c, ms, records, f).ms.procurement == SafeTo(c)
    ensures Discover(c, ms, records, f).scanned <==> Resume(c, ms, f) <= SafeTo(c)
    ensures Discover(c, ms, records, f).scanned ==>
              Discover(c, ms, records, f).records
              == Track(records, EventsIn(c, Resume(c, ms, f), LastDelivered(Resume(c, ms, f), SafeTo(c), f.replies, 0)))
    ensures !Discover(c, ms, records, f).scanned ==> Discover(c, ms, records, f).records == records
  {
    hide Aligned, Paged, Track, EventsIn, LastDelivered;
    if Discover(c, ms, records, f).scanned {
      PagedReadsAreExact(c, Resume(c, ms, f), SafeTo(c), f.replies, 0);
    }
  }

  /** A gapless discovery leaves no event of the current chain up to its cursor without a record. */
  lemma GaplessDiscoveryCovers(c: Chain, ms: Cursors, base: seq<Block>, records: Records, start: nat, f: Faults)
    requires Covered(base, start, records) && Gapless(c, ms, base, start, f)
    requires Discover(c, ms, records, f).scanned || Discover(c, ms, records, f).completed
    ensures Covered(c[..SafeTo(c) + 1], start, Discover(c, ms, records, f).records)
  {
    hide Discover, Aligned, Track, EventsIn;
    ScannedDiscovery(c, ms, records, f);
    var d := Discover(c, ms, records, f);
    var from, safe := Resume(c, ms, f), SafeTo(c);
    forall n: nat, e | start < n < safe + 1 && e in c[n].created
      ensures e.id in d.records
    {
      if n < NextUnseen(base, c, start) {
        assert base[..Shared(base, c)][n] == c[..Shared(base, c)][n];
        if d.scanned {
          TrackingIsExact(records, EventsIn(c, from, LastDelivered(from, safe, f.replies, 0)), e.id);
        }
      } else {
        TrackingCovers(records, c, from, safe, n, e);
      }
    }
  }

  // ---- the condition is exact ----

  /** The procurement cursor after the anchors have been checked. */
  function RewoundTo(c: Chain, cursor: nat, todo: seq<Anchor>): nat
    decreases |todo|
  {
    if todo == [] then cursor
    else if todo[0].key == ProcurementKey && Reorganised(c, todo[0]) then RewoundTo(c, RewindTarget(todo[0]), todo[1..])
    else RewoundTo(c, cursor, todo[1..])
  }

  lemma {:induction false} ReconcileIsRewoundTo(c: Chain, ms: Cursors, todo: seq<Anchor>, hashReads: nat)
    ensures Reconcile(c, ms, todo, hashReads).1 <==> Checks(todo) <= hashReads
    ensures Checks(todo) <= hashReads ==> Reconcile(c, ms, todo, hashReads).0.procurement == RewoundTo(c, ms.procurement, todo)
    ensures Reconcile(c, ms, todo, hashReads).0.observedHead == ms.observedHead
    ensures Reconcile(c, ms, todo, hashReads).0.anchors == ms.anchors
    decreases |todo|
  {
    if todo != [] {
      if !Checkable(todo[0]) {
        ReconcileIsRewoundTo(c, ms, todo[1..], hashReads);
      } else if hashReads > 0 {
        var next := if Reorganised(c, todo[0]) then WithCursor(ms, todo[0].key, RewindTarget(todo[0])) else ms;
        ReconcileIsRewoundTo(c, next, todo[1..], hashReads - 1);
      }
    }
  }

  /** Both chains give the same verdict on every procurement anchor. */
  ghost predicate SameVerdicts(c: Chain, c': Chain, anchors: seq<Anchor>) {
    forall a :: a in anchors && a.key == ProcurementKey ==> (Reorganised(c, a) <==> Reorganised(c', a))
  }

  lemma {:induction false} SameVerdictsRewindAlike(c: Chain, c': Chain, cursor: nat, todo: seq<Anchor>)
    requires SameVerdicts(c, c', todo)
    ensures RewoundTo(c, cursor, todo) == RewoundTo(c', cursor, todo)
    decreases |todo|
  {
    if todo != [] {
      assert todo[0] in todo;
      var next := if todo[0].key == ProcurementKey && Reorganised(c, todo[0]) then RewindTarget(todo[0]) else cursor;
      SameVerdictsRewindAlike(c, c', next, todo[1..]);
    }
  }

  lemma AlikeChainsResumeAlike(c: Chain, c': Chain, ms: Cursors, f: Faults)
    requires |c| == |c'| && SameVerdicts(c, c', ms.anchors)
    ensures Aligned(c, ms, f.hashReads).1 == Aligned(c', ms, f.hashReads).1
    ensures Aligned(c, ms, f.hashReads).1 ==> Resume(c, ms, f) == Resume(c', ms, f)
  {
    ReconcileIsRewoundTo(c, ms, ms.anchors, f.hashReads);
    ReconcileIsRewoundTo(c', ms, ms.anchors, f.hashReads);
    SameVerdictsRewindAlike(c, c', ms.procurement, ms.anchors);
  }

  /** The anchors that still match the chain lie in the part that has been seen. */
  ghost predicate MatchesAreSeen(c: Chain, ms: Cursors, unseen: nat) {
    forall a :: a in ms.anchors && a.key == ProcurementKey && Checkable(a) && !Reorganised(c, a) ==> a.block < unseen
  }

  /** The chains that differ from `c` only in blocks nobody has seen, and on which the discovery goes the same way. */
  ghost predicate Possible(c: Chain, c': Chain, ms: Cursors, unseen: nat) {
    && |c'| == |c|
    && (forall n :: 0 <= n < unseen && n < |c| ==> c'[n] == c[n])
    && SameVerdicts(c, c', ms.anchors)
  }

  /** A larger nonce than any anchor has at block `n`. */
  function NewNonce(anchors: seq<Anchor>, n: nat): (nonce: nat)
    ensures forall a :: a in anchors && a.hash.Some? && n < |a.hash.value.prefix| ==> a.hash.value.prefix[n].nonce < nonce
  {
    if anchors == [] then 0
    else
      var rest := NewNonce(anchors[1..], n);
      var a := anchors[0];
      if a.hash.Some? && n < |a.hash.value.prefix| && a.hash.value.prefix[n].nonce >= rest
      then a.hash.value.prefix[n].nonce + 1 else rest
  }

  lemma {:induction false} SomeFreshId(ids: set<ProcurementId>) returns (unused: ProcurementId)
    ensures forall id :: id in ids ==> id < unused
    decreases |ids|
  {
    if ids == {} {
      unused := 0;
    } else {
      var id :| id in ids;
      var above := SomeFreshId(ids - {id});
      unused := if id < above then above else id + 1;
      assert forall other :: other in ids ==> other == id || other in ids - {id};
    }
  }

  /** `c` with other content in the unseen block `n`. */
  function Variant(c: Chain, ms: Cursors, n: nat, id: ProcurementId): Chain
    requires n < |c|
  {
    c[n := Block(NewNonce(ms.anchors, n), [Created(id, "")])]
  }

  lemma VariantIsPossible(c: Chain, ms: Cursors, unseen: nat, n: nat, id: ProcurementId)
    requires unseen <= n < |c| && MatchesAreSeen(c, ms, unseen)
    ensures Possible(c, Variant(c, ms, n, id), ms, unseen)
  {
    var c' := Variant(c, ms, n, id);
    forall a | a in ms.anchors && a.key == ProcurementKey
      ensures Reorganised(c, a) <==> Reorganised(c', a)
    {
      if Checkable(a) {
        if a.block < n {
          assert c'[..a.block + 1] == c[..a.block + 1];
        } else if a.block < |c| && n < |a.hash.value.prefix| {
          assert c'[..a.block + 1][n].nonce != a.hash.value.prefix[n].nonce;
        }
      }
    }
  }

  lemma {:induction false} EventsElsewhereAreUntouched(c: Chain, c': Chain, lo: nat, hi: int)
    requires hi < |c| == |c'| && forall n :: lo <= n <= hi ==> c[n] == c'[n]
    ensures EventsIn(c, lo, hi) == EventsIn(c', lo, hi)
    decreases hi - lo
  {
    if lo <= hi {
      EventsElsewhereAreUntouched(c, c', lo, hi - 1);
    }
  }

  /** What is paged out of a range depends only on what is delivered. */
  lemma PagedElsewhereIsUntouched(c: Chain, c': Chain, first: nat, last: nat, replies: seq<Reply>)
    requires first <= last < |c| == |c'|
    requires forall n :: first <= n <= LastDelivered(first, last, replies, 0) ==> c[n] == c'[n]
    requires Paged(c, first, last, replies, 0).Some?
    ensures Paged(c', first, last, replies, 0) == Paged(c, first, last, replies, 0)
  {
    ContentDoesNotMatter(c, c', first, last, replies, 0);
    PagedReadsAreExact(c, first, last, replies, 0);
    PagedReadsAreExact(c', first, last, replies, 0);
    EventsElsewhereAreUntouched(c, c', first, LastDelivered(first, last, replies, 0));
  }

  lemma {:induction false} ContentDoesNotMatter(c: Chain, c': Chain, first: nat, last: nat, replies: seq<Reply>, i: nat)
    requires last < |c| == |c'|
    ensures Paged(c, first, last, replies, i).Some? <==> Paged(c', first, last, replies, i).Some?
    decreases last + 1 - first
  {
    hide EventsIn, ReplyAt, ChunkEnd;
    if first <= last {
      var end := ChunkEnd(first, last);
      ContentDoesNotMatter(c, c', end + 1, last, replies, i + 1);
      ContentDoesNotMatter(c, c', end + 1, last, replies, i + 3);
    }
  }

  /** With a gap, some possible chain hides an event that the completed discovery leaves without a record. */
  lemma GapLosesAnEvent(c: Chain, ms: Cursors, base: seq<Block>, records: Records, start: nat, f: Faults) returns (c': Chain)
    requires Discover(c, ms, records, f).completed && !Gapless(c, ms, base, start, f)
    requires MatchesAreSeen(c, ms, NextUnseen(base, c, start))
    ensures Possible(c, c', ms, NextUnseen(base, c, start)) && Discover(c', ms, records, f).completed
    ensures !Covered(c'[..SafeTo(c) + 1], start, Discover(c', ms, records, f).records)
  {
    hide Discover, Aligned, Track, EventsIn, SkipsTail, Shared;
    var g, from, safe := NextUnseen(base, c, start), Resume(c, ms, f), SafeTo(c);
    var n := if from > g then g else safe;
    var d := Discover(c, ms, records, f);
    var id := SomeFreshId(d.records.Keys);
    c' := Variant(c, ms, n, id);
    VariantIsPossible(c, ms, g, n, id);
    ScannedDiscovery(c, ms, records, f);
    VariantGoesTheSameWay(c, c', ms, records, f, n);
    assert c'[..safe + 1][n].created == [Created(id, "")];
    assert Created(id, "") in c'[..safe + 1][n].created && id !in d.records;
  }

  lemma VariantGoesTheSameWay(c: Chain, c': Chain, ms: Cursors, records: Records, f: Faults, n: nat)
    requires Discover(c, ms, records, f).completed
    requires |c| == |c'| && SameVerdicts(c, c', ms.anchors) && forall m :: 0 <= m < |c| && m != n ==> c'[m] == c[m]
    requires Resume(c, ms, f) > n || n > LastDelivered(Resume(c, ms, f), SafeTo(c), f.replies, 0)
    ensures Discover(c', ms, records, f).completed
    ensures Discover(c', ms, records, f).records == Discover(c, ms, records, f).records
  {
    hide Aligned, Paged, Track, LastDelivered;
    ScannedDiscovery(c, ms, records, f);
    AlikeChainsResumeAlike(c, c', ms, f);
    if Resume(c, ms, f) <= SafeTo(c) {
      PagedElsewhereIsUntouched(c, c', Resume(c, ms, f), SafeTo(c), f.replies);
    }
  }

  /** A completed discovery is sure to leave no event behind, whatever the unseen blocks hold, exactly when it is gapless. */
  lemma DiscoveryIsSafeExactly(c: Chain, ms: Cursors, base: seq<Block>, records: Records, start: nat, f: Faults)
    requires Covered(base, start, records) && Discover(c, ms, records, f).completed
    requires MatchesAreSeen(c, ms, NextUnseen(base, c, start))
    ensures Gapless(c, ms, base, start, f) <==>
            forall c': Chain :: Possible(c, c', ms, NextUnseen(base, c, start)) && Discover(c', ms, records, f).completed ==>
              Covered(c'[..SafeTo(c) + 1], start, Discover(c', ms, records, f).records)
  {
    hide Discover, Covered;
    if Gapless(c, ms, base, start, f) {
      forall c': Chain | Possible(c, c', ms, NextUnseen(base, c, start)) && Discover(c', ms, records, f).completed
        ensures Covered(c'[..SafeTo(c) + 1], start, Discover(c', ms, records, f).records)
      {
        PossibleStaysGapless(c, c', ms, base, records, start, f);
        GaplessDiscoveryCovers(c', ms, base, records, start, f);
      }
    } else {
      var c' := GapLosesAnEvent(c, ms, base, records, start, f);
    }
  }

  lemma PossibleStaysGapless(c: Chain, c': Chain, ms: Cursors, base: seq<Block>, records: Records, start: nat, f: Faults)
    requires Possible(c, c', ms, NextUnseen(base, c, start)) && Gapless(c, ms, base, start, f)
    requires Discover(c, ms, records, f).completed
    ensures Gapless(c', ms, base, start, f)
  {
    hide Discover, Aligned;
    ScannedDiscovery(c, ms, records, f);
    AlikeChainsResumeAlike(c, c', ms, f);
    SharedGrows(base, c, c', NextUnseen(base, c, start));
  }

  /** A chain that agrees with `c` on the seen part shares at least as much with the base. */
  lemma SharedGrows(base: seq<Block>, c: Chain, c': Chain, unseen: nat)
    requires |c| == |c'| && Shared(base, c) <= unseen && forall n :: 0 <= n < unseen && n < |c| ==> c'[n] == c[n]
    ensures Shared(base, c) <= Shared(base, c')
  {
    var k := Shared(base, c);
    assert forall n :: 0 <= n < k ==> base[..k][n] == c[..k][n];
  }

  // ---- runs ----

  /** The chain, the monitor's memory and saved cursors, and the records. The last two fields are bookkeeping of the
      proof: the blocks whose scan produced the cursors in memory, and those behind the saved ones. */
  datatype World = World(chain: Chain, memory: Cursors, saved: Cursors, records: Records,
                         base: seq<Block>, savedBase: seq<Block>)

  datatype Step =
    | ChainMoves(move: Move)
    | Cycle(f: Faults, shortlists: Sweep, winners: Sweep, ending: Ending)
    | Restart

  function Found(w: World, f: Faults): Discovery {
    Discover(w.chain, w.memory, w.records, f)
  }

  function Next(w: World, s: Step): World {
    match s
    case ChainMoves(m) => if CanMove(w.chain, m) then w.(chain := Moved(w.chain, m)) else w
    case Cycle(f, shortlists, winners, ending) =>
      var (d, ms, saved) := CycleResult(w.chain, w.memory, w.records, f, shortlists, winners, ending);
      var base := if d.scanned then w.chain[..SafeTo(w.chain) + 1] else w.base;
      World(w.chain, ms, if saved then ms else w.saved, d.records, base, if saved then base else w.savedBase)
    case Restart => w.(memory := w.saved, base := w.savedBase)
  }

  function After(w: World, run: seq<Step>): World {
    if run == [] then w else Next(After(w, run[..|run| - 1]), run[|run| - 1])
  }

  /** The monitor as first started: nothing is known about the blocks above its cursor. */
  predicate Initial(w: World, start: nat) {
    && w.memory == w.saved && w.base == w.savedBase == [] && w.memory.anchors == []
    && w.memory.procurement == start
  }

  predicate ReachesTheCursor(w: World, s: Step) {
    s.Cycle? && (Found(w, s.f).scanned || Found(w, s.f).completed)
  }

  ghost predicate GaplessRun(w: World, run: seq<Step>, start: nat) {
    forall k :: 0 <= k < |run| && ReachesTheCursor(After(w, run[..k]), run[k]) ==>
      Gapless(After(w, run[..k]).chain, After(w, run[..k]).memory, After(w, run[..k]).base, start, run[k].f)
  }

  ghost predicate BasesAreCovered(w: World, start: nat) {
    Covered(w.base, start, w.records) && Covered(w.savedBase, start, w.records)
  }

  lemma FailedDiscoveryKeepsCoverage(c: Chain, ms: Cursors, records: Records, f: Faults, blocks: seq<Block>, start: nat)
    requires Covered(blocks, start, records)
    ensures Covered(blocks, start, Discover(c, ms, records, f).records)
  {
    hide Aligned, Paged, Track, Covered;
    var from := Resume(c, ms, f);
    if f.headOk && Aligned(c, ms, f.hashReads).1 && from <= SafeTo(c) && Paged(c, from, SafeTo(c), f.replies, 0).Some? {
      var events := Paged(c, from, SafeTo(c), f.replies, 0).value;
      CoverageGrows(blocks, start, records, events);
      if f.handled < |events| {
        CoverageGrows(blocks, start, records, events[..f.handled]);
      }
    }
  }

  lemma NextKeepsCoverage(w: World, s: Step, start: nat)
    requires BasesAreCovered(w, start)
    requires ReachesTheCursor(w, s) ==> Gapless(w.chain, w.memory, w.base, start, s.f)
    ensures BasesAreCovered(Next(w, s), start)
    ensures ReachesTheCursor(w, s) ==> Covered(w.chain[..SafeTo(w.chain) + 1], start, Next(w, s).records)
  {
    hide Discover, Covered, Gapless, Swept;
    if s.Cycle? {
      FailedDiscoveryKeepsCoverage(w.chain, w.memory, w.records, s.f, w.base, start);
      FailedDiscoveryKeepsCoverage(w.chain, w.memory, w.records, s.f, w.savedBase, start);
      if ReachesTheCursor(w, s) {
        GaplessDiscoveryCovers(w.chain, w.memory, w.base, w.records, start, s.f);
      }
    }
  }

  lemma {:induction false} RunKeepsCoverage(w: World, run: seq<Step>, start: nat)
    requires BasesAreCovered(w, start) && GaplessRun(w, run, start)
    ensures BasesAreCovered(After(w, run), start)
  {
    hide Next, BasesAreCovered, ReachesTheCursor, Gapless;
    if run != [] {
      var front := run[..|run| - 1];
      assert forall k :: 0 <= k < |front| ==> front[..k] == run[..k];
      RunKeepsCoverage(w, front, start);
      NextKeepsCoverage(After(w, front), run[|run| - 1], start);
    }
  }

  /** The sweeps for shortlist and winner events leave the discovery's cursor and anchor alone. */
  lemma SweepsLeaveDiscoveryAlone(ms: Cursors, key: Key, s: Sweep)
    requires key != ProcurementKey
    ensures Swept(ms, key, s).0.procurement == ms.procurement
    ensures forall a: Anchor :: a.key == ProcurementKey ==> (a in Swept(ms, key, s).0.anchors <==> a in ms.anchors)
  {
    hide Paged;
    SetAnchorTouchesOneKey(ms.anchors, Anchor(key, SafeTo(s.chain), BlockHash(s.chain, SafeTo(s.chain))));
  }

  lemma {:induction false} SetAnchorTouchesOneKey(anchors: seq<Anchor>, a: Anchor)
    ensures forall b: Anchor :: b.key != a.key ==> (b in SetAnchor(anchors, a) <==> b in anchors)
  {
    if anchors != [] {
      SetAnchorTouchesOneKey(anchors[1..], a);
      assert anchors == [anchors[0]] + anchors[1..];
    }
  }

  lemma CycleMovesTheCursor(w: World, s: Step)
    requires s.Cycle?
    ensures Next(w, s).memory.procurement == Found(w, s.f).ms.procurement
    ensures forall a: Anchor :: a.key == ProcurementKey ==> (a in Next(w, s).memory.anchors <==> a in Found(w, s.f).ms.anchors)
  {
    hide Discover, Swept;
    var d := Found(w, s.f);
    SweepsLeaveDiscoveryAlone(d.ms, ShortlistKey, s.shortlists);
    SweepsLeaveDiscoveryAlone(Swept(d.ms, ShortlistKey, s.shortlists).0, WinnerKey, s.winners);
  }

  /** In every gapless run, after each cycle whose discovery completed, every creation event of the current chain above
      `start` and up to the cursor has its record. */
  lemma ReorgSafeCoverage(w: World, run: seq<Step>, start: nat, k: nat)
    requires Initial(w, start) && GaplessRun(w, run, start)
    requires k < |run| && ReachesTheCursor(After(w, run[..k]), run[k])
    ensures var w' := After(w, run[..k + 1]);
            w'.memory.procurement + 1 <= |w'.chain| && Covered(w'.chain[..w'.memory.procurement + 1], start, w'.records)
  {
    hide Discover, Covered, Gapless, BasesAreCovered, Swept;
    var before := run[..k];
    assert run[..k + 1][..k] == before;
    assert forall j :: 0 <= j < |before| ==> before[..j] == run[..j];
    assert BasesAreCovered(w, start) by { NothingIsCovered(w, start); }
    RunKeepsCoverage(w, before, start);
    var mid := After(w, before);
    NextKeepsCoverage(mid, run[k], start);
    CycleMovesTheCursor(mid, run[k]);
    ScannedDiscovery(mid.chain, mid.memory, mid.records, run[k].f);
  }

  lemma NothingIsCovered(w: World, start: nat)
    requires w.base == w.savedBase == []
    ensures BasesAreCovered(w, start)
  {
  }

  /** No step of a run removes or replaces a record. */
  lemma {:induction false} RecordsAreForever(w: World, run: seq<Step>, id: ProcurementId)
    requires id in w.records
    ensures id in After(w, run).records && After(w, run).records[id] == w.records[id]
  {
    hide Aligned, Paged, Track, Swept;
    if run != [] {
      RecordsAreForever(w, run[..|run| - 1], id);
      var mid := After(w, run[..|run| - 1]);
      var s := run[|run| - 1];
      if s.Cycle? {
        DiscoveryKeepsRecords(mid.chain, mid.memory, mid.records, s.f, id);
      }
    }
  }

  lemma DiscoveryKeepsRecords(c: Chain, ms: Cursors, records: Records, f: Faults, id: ProcurementId)
    requires id in records
    ensures id in Discover(c, ms, records, f).records && Discover(c, ms, records, f).records[id] == records[id]
  {
    hide Aligned, Paged, Track;
    var from := Resume(c, ms, f);
    if f.headOk && Aligned(c, ms, f.hashReads).1 && from <= SafeTo(c) && Paged(c, from, SafeTo(c), f.replies, 0).Some? {
      var events := Paged(c, from, SafeTo(c), f.replies, 0).value;
      TrackingIsExact(records, events, id);
      if f.handled < |events| {
        TrackingIsExact(records, events[..f.handled], id);
      }
    }
  }

  // ---- where the cursors end up ----

  /** With one anchor per cursor, checking the anchors rewinds exactly the cursors whose anchor is off the chain, each to
      1024 blocks below its anchor. */
  lemma {:induction false} RewoundCursor(c: Chain, ms: Cursors, todo: seq<Anchor>, hashReads: nat, key: Key)
    requires UniqueKeys(todo) && Reconcile(c, ms, todo, hashReads).1
    ensures var cursor := CursorOf(Reconcile(c, ms, todo, hashReads).0, key);
            && (forall a :: a in todo && a.key == key && Reorganised(c, a) ==> cursor == if a.block > 1024 then a.block - 1024 else 0)
            && ((forall a :: a in todo && a.key == key ==> !Reorganised(c, a)) ==> cursor == CursorOf(ms, key))
    decreases |todo|
  {
    hide Reorganised;
    if todo != [] {
      assert forall a :: a in todo <==> a == todo[0] || a in todo[1..];
      assert forall a :: a in todo[1..] ==> a.key != todo[0].key;
      if !Checkable(todo[0]) {
        assert !Reorganised(c, todo[0]) by { UncheckedStays(c, todo[0]); }
        RewoundCursor(c, ms, todo[1..], hashReads, key);
      } else {
        var next := if Reorganised(c, todo[0]) then WithCursor(ms, todo[0].key, RewindTarget(todo[0])) else ms;
        RewoundCursor(c, next, todo[1..], hashReads - 1, key);
      }
    }
  }

  lemma UncheckedStays(c: Chain, a: Anchor)
    requires !Checkable(a)
    ensures !Reorganised(c, a)
  {
  }

  /** Where a completed discovery starts, and what it leaves: the procurement cursor 24 blocks below the head, the other two rewound by a lower
      head to 1024 blocks below it, else by their own anchors, else untouched, and the head it saw. */
  lemma CursorsAfterDiscovery(c: Chain, ms: Cursors, records: Records, f: Faults, key: Key)
    requires UniqueKeys(ms.anchors) && Discover(c, ms, records, f).completed
    ensures var d, d0, h := Discover(c, ms, records, f).ms, Aligned(c, ms, f.hashReads).0.procurement, |c| - 1;
            && d.observedHead == h
            && Resume(c, ms, f) == (if d0 > 0 then d0 + 1 else if h > 1024 then h - 1024 else 0)
            && CursorOf(d, ProcurementKey) == (if h > 24 then h - 24 else 0)
            && (key != ProcurementKey && ms.observedHead > h ==> CursorOf(d, key) == if h > 1024 then h - 1024 else 0)
            && (key != ProcurementKey && ms.observedHead <= h ==>
                  && (forall a :: a in ms.anchors && a.key == key && Reorganised(c, a) ==>
                        CursorOf(d, key) == if a.block > 1024 then a.block - 1024 else 0)
                  && ((forall a :: a in ms.anchors && a.key == key ==> !Reorganised(c, a)) ==> CursorOf(d, key) == CursorOf(ms, key)))
  {
    hide Reconcile, Reorganised, Paged, Track, SetAnchor, UniqueKeys;
    RewoundCursor(c, ms, ms.anchors, f.hashReads, key);
    ReconcileIsRewoundTo(c, ms, ms.anchors, f.hashReads);
  }

  // ---- hypotheses that keep a run gapless ----

  predicate UniqueKeys(anchors: seq<Anchor>) {
    forall i, j :: 0 <= i < j < |anchors| ==> anchors[i].key != anchors[j].key
  }

  /** Every procurement anchor is the last block of the base, and a base that is not empty is anchored. */
  ghost predicate AnchorsTheBase(anchors: seq<Anchor>, base: seq<Block>) {
    && UniqueKeys(anchors)
    && (forall a :: a in anchors && a.key == ProcurementKey ==>
          a.block > 0 && a.hash == Some(HashOf(base)) && |base| == a.block + 1)
    && (|base| > 0 ==> exists a :: a in anchors && a.key == ProcurementKey)
  }

  predicate WithinTheBase(cursor: nat, base: seq<Block>, start: nat) {
    0 < cursor && (cursor <= start || cursor < |base|)
  }

  /** The base is anchored and the cursor is not beyond it. */
  ghost predicate Anchored(ms: Cursors, base: seq<Block>, start: nat) {
    WithinTheBase(ms.procurement, base, start) && AnchorsTheBase(ms.anchors, base)
  }

  /** The target of a rolled back head does not advance the cursor, or lies in the blocks known to be on the chain. */
  predicate HeadTargetIsLow(c: Chain, ms: Cursors, onChain: nat) {
    HeadRolledBack(c, ms) ==>
      0 < HeadTarget(c) && (HeadTarget(c) <= RewoundTo(c, ms.procurement, ms.anchors) || HeadTarget(c) < onChain)
  }

  /** What the rewinding is not built for does not happen: a detected reorganisation forks at or above its rewind target,
      a rolled back head skips nothing, neither target is block zero, no short tail is refused, and the new anchor can
      be read. `onChain` is how many scanned blocks are still on the chain. */
  ghost predicate BenignCycle(w: World, f: Faults, onChain: nat) {
    f.headOk ==>
      && HighForks(w.chain, w.memory.anchors, onChain)
      && HeadTargetIsLow(w.chain, w.memory, onChain)
      && SafeTo(w.chain) > 0
      && !SkipsTail(Resume(w.chain, w.memory, f), SafeTo(w.chain), f.replies, 0)
      && f.anchorOk
  }

  ghost predicate Benign(w: World, s: Step) {
    s.Cycle? ==> BenignCycle(w, s.f, Shared(w.base, w.chain))
  }

  ghost predicate BenignRun(w: World, run: seq<Step>) {
    forall k :: 0 <= k < |run| ==> Benign(After(w, run[..k]), run[k])
  }

  ghost predicate SomeReorganised(c: Chain, todo: seq<Anchor>) {
    exists a :: a in todo && a.key == ProcurementKey && Reorganised(c, a)
  }

  /** Every detected reorganisation forks at or above its positive rewind target. */
  ghost predicate HighForks(c: Chain, todo: seq<Anchor>, onChain: nat) {
    forall a :: a in todo && a.key == ProcurementKey && Reorganised(c, a) ==> 0 < RewindTarget(a) < onChain
  }

  lemma {:induction false} RewindingIsSafe(c: Chain, cursor: nat, onChain: nat, todo: seq<Anchor>)
    requires HighForks(c, todo, onChain)
    ensures if SomeReorganised(c, todo) then 0 < RewoundTo(c, cursor, todo) < onChain else RewoundTo(c, cursor, todo) == cursor
    decreases |todo|
  {
    hide Reorganised;
    if todo != [] {
      assert todo[0] in todo;
      assert forall a :: a in todo <==> a == todo[0] || a in todo[1..];
      if todo[0].key == ProcurementKey && Reorganised(c, todo[0]) {
        RewindingIsSafe(c, RewindTarget(todo[0]), onChain, todo[1..]);
      } else {
        RewindingIsSafe(c, cursor, onChain, todo[1..]);
      }
    }
  }

  /** The same for a check of the anchors that is cut short. */
  lemma {:induction false} PartialRewindIsSafe(c: Chain, ms: Cursors, onChain: nat, todo: seq<Anchor>, hashReads: nat)
    requires HighForks(c, todo, onChain)
    ensures var p := Reconcile(c, ms, todo, hashReads).0.procurement; p == ms.procurement || 0 < p < onChain
    decreases |todo|
  {
    hide Reorganised;
    if todo != [] {
      assert todo[0] in todo;
      assert forall a :: a in todo <==> a == todo[0] || a in todo[1..];
      if !Checkable(todo[0]) {
        PartialRewindIsSafe(c, ms, onChain, todo[1..], hashReads);
      } else if hashReads > 0 {
        var next := if Reorganised(c, todo[0]) then WithCursor(ms, todo[0].key, RewindTarget(todo[0])) else ms;
        PartialRewindIsSafe(c, next, onChain, todo[1..], hashReads - 1);
      }
    }
  }

  /** While the anchor matches, the whole base is on the chain. */
  lemma MatchingAnchorSharesTheBase(c: Chain, base: seq<Block>, a: Anchor)
    requires a.block > 0 && a.hash == Some(HashOf(base)) && |base| == a.block + 1 && !Reorganised(c, a)
    ensures Shared(base, c) == |base|
  {
    assert base[..|base|] == base == c[..a.block + 1];
    PrefixIsShared(base, c, |base|);
  }

  /** Where a cursor may stand without skipping an unseen block. */
  predicate InTime(p: nat, c: Chain, base: seq<Block>, start: nat) {
    0 < p && (p <= start || p < Shared(base, c))
  }

  lemma AnchoredCursorIsInTime(c: Chain, ms: Cursors, base: seq<Block>, start: nat)
    requires Anchored(ms, base, start) && HighForks(c, ms.anchors, Shared(base, c))
    ensures InTime(RewoundTo(c, ms.procurement, ms.anchors), c, base, start)
  {
    hide RewoundTo, RewindTarget;
    RewindingIsSafe(c, ms.procurement, Shared(base, c), ms.anchors);
    if !SomeReorganised(c, ms.anchors) && ms.procurement > start {
      var a :| a in ms.anchors && a.key == ProcurementKey;
      MatchingAnchorSharesTheBase(c, base, a);
    }
  }

  /** The cursor after the anchors and the head have been looked at. */
  lemma AlignedCursor(c: Chain, ms: Cursors, hashReads: nat)
    requires Aligned(c, ms, hashReads).1
    ensures Aligned(c, ms, hashReads).0.procurement
            == if HeadRolledBack(c, ms) then HeadTarget(c) else RewoundTo(c, ms.procurement, ms.anchors)
    ensures Aligned(c, ms, hashReads).0.anchors == ms.anchors
  {
    ReconcileIsRewoundTo(c, ms, ms.anchors, hashReads);
  }

  lemma BenignStepIsGapless(w: World, s: Step, start: nat)
    requires Anchored(w.memory, w.base, start) && Benign(w, s) && ReachesTheCursor(w, s)
    ensures Gapless(w.chain, w.memory, w.base, start, s.f)
  {
    hide Discover, RewoundTo, SkipsTail, RewindTarget, Aligned, Shared;
    ScannedDiscovery(w.chain, w.memory, w.records, s.f);
    AnchoredCursorIsInTime(w.chain, w.memory, w.base, start);
    AlignedCursor(w.chain, w.memory, s.f.hashReads);
  }

  lemma {:induction false} SetAnchorKeepsKeysUnique(anchors: seq<Anchor>, a: Anchor)
    requires UniqueKeys(anchors)
    ensures UniqueKeys(SetAnchor(anchors, a)) && a in SetAnchor(anchors, a)
    ensures forall b :: b in SetAnchor(anchors, a) ==> b == a || (b in anchors && b.key != a.key)
  {
    if anchors != [] && anchors[0].key != a.key {
      SetAnchorKeepsKeysUnique(anchors[1..], a);
      var rest := SetAnchor(anchors[1..], a);
      var result := [anchors[0]] + rest;
      forall i, j | 0 <= i < j < |result|
        ensures result[i].key != result[j].key
      {
        assert result[j] == rest[j - 1];
        if i > 0 {
          assert result[i] == rest[i - 1];
        }
      }
    } else if anchors != [] {
      var result := [a] + anchors[1..];
      assert forall i :: 0 < i < |result| ==> result[i] == anchors[i];
    }
  }

  /** However far the checks get, the cursor stays within the base and the anchors stay as they were. */
  lemma AlignedStaysWithinTheBase(c: Chain, ms: Cursors, base: seq<Block>, start: nat, hashReads: nat)
    requires Anchored(ms, base, start)
    requires HighForks(c, ms.anchors, Shared(base, c)) && HeadTargetIsLow(c, ms, Shared(base, c))
    ensures var aligned := Aligned(c, ms, hashReads).0;
            WithinTheBase(aligned.procurement, base, start) && aligned.anchors == ms.anchors
  {
    hide Reconcile, RewoundTo, RewindTarget, Shared, HighForks, AnchorsTheBase;
    ReconcileIsRewoundTo(c, ms, ms.anchors, hashReads);
    PartialRewindIsSafe(c, ms, Shared(base, c), ms.anchors, hashReads);
  }

  /** A discovery that did not get through its events leaves the aligned cursor or lowers it to the safe block. */
  lemma UnscannedDiscovery(c: Chain, ms: Cursors, records: Records, f: Faults)
    requires !Discover(c, ms, records, f).scanned
    ensures var d, aligned := Discover(c, ms, records, f).ms, if f.headOk then Aligned(c, ms, f.hashReads).0 else ms;
            && d.anchors == aligned.anchors
            && (d.procurement == aligned.procurement
                || (d.procurement == SafeTo(c) && (SafeTo(c) > 0 ==> aligned.procurement == 0 || SafeTo(c) <= aligned.procurement)))
  {
    hide Aligned, Paged, Track;
  }

  lemma ScannedDiscoveryAnchors(c: Chain, ms: Cursors, records: Records, f: Faults)
    requires Discover(c, ms, records, f).scanned && f.anchorOk && SafeTo(c) > 0
    ensures var d := Discover(c, ms, records, f).ms;
            && d.procurement == SafeTo(c)
            && d.anchors == SetAnchor(Aligned(c, ms, f.hashReads).0.anchors, Anchor(ProcurementKey, SafeTo(c), BlockHash(c, SafeTo(c))))
  {
    hide Aligned, Paged, Track, SetAnchor;
  }

  /** A discovery under benign conditions leaves an anchored state, whether it completes or not. */
  lemma BenignDiscoveryKeepsAnchored(w: World, s: Step, start: nat)
    requires s.Cycle? && Anchored(w.memory, w.base, start) && Benign(w, s)
    ensures var d := Found(w, s.f);
            Anchored(d.ms, if d.scanned then w.chain[..SafeTo(w.chain) + 1] else w.base, start)
  {
    var c, ms, f := w.chain, w.memory, s.f;
    hide Discover, Aligned, SkipsTail, HighForks, HeadTargetIsLow, Shared;
    if f.headOk {
      AlignedStaysWithinTheBase(c, ms, w.base, start, f.hashReads);
    }
    if Found(w, f).scanned {
      ScannedDiscovery(c, ms, w.records, f);
      ScannedDiscoveryAnchors(c, ms, w.records, f);
      SetAnchorKeepsKeysUnique(ms.anchors, Anchor(ProcurementKey, SafeTo(c), BlockHash(c, SafeTo(c))));
    } else {
      UnscannedDiscovery(c, ms, w.records, f);
    }
  }

  lemma BenignStepKeepsAnchored(w: World, s: Step, start: nat)
    requires Anchored(w.memory, w.base, start) && Anchored(w.saved, w.savedBase, start) && Benign(w, s)
    ensures Anchored(Next(w, s).memory, Next(w, s).base, start) && Anchored(Next(w, s).saved, Next(w, s).savedBase, start)
  {
    hide Discover, Benign, Swept, Anchored;
    if s.Cycle? {
      BenignDiscoveryKeepsAnchored(w, s, start);
      var d := Found(w, s.f);
      var base := if d.scanned then w.chain[..SafeTo(w.chain) + 1] else w.base;
      SweepKeepsAnchored(d.ms, base, start, ShortlistKey, s.shortlists);
      SweepKeepsAnchored(Swept(d.ms, ShortlistKey, s.shortlists).0, base, start, WinnerKey, s.winners);
    }
  }

  lemma SweepKeepsAnchored(ms: Cursors, base: seq<Block>, start: nat, key: Key, s: Sweep)
    requires Anchored(ms, base, start) && key != ProcurementKey
    ensures Anchored(Swept(ms, key, s).0, base, start)
  {
    hide Paged;
    SweepsLeaveDiscoveryAlone(ms, key, s);
    SetAnchorKeepsKeysUnique(ms.anchors, Anchor(key, SafeTo(s.chain), BlockHash(s.chain, SafeTo(s.chain))));
  }

  lemma {:induction false} BenignRunKeepsAnchored(w: World, run: seq<Step>, start: nat)
    requires Initial(w, start) && start > 0 && BenignRun(w, run)
    ensures Anchored(After(w, run).memory, After(w, run).base, start)
    ensures Anchored(After(w, run).saved, After(w, run).savedBase, start)
  {
    hide Next, Benign;
    if run != [] {
      var front := run[..|run| - 1];
      assert forall k :: 0 <= k < |front| ==> front[..k] == run[..k];
      BenignRunKeepsAnchored(w, front, start);
      BenignStepKeepsAnchored(After(w, front), run[|run| - 1], start);
    }
  }

  /** Under benign conditions the monitor misses nothing: after each cycle whose discovery completed, every creation event
      of the current chain above the starting block and up to the cursor has its record. */
  lemma BenignRunsMissNothing(w: World, run: seq<Step>, start: nat, k: nat)
    requires Initial(w, start) && start > 0 && BenignRun(w, run)
    requires k < |run| && ReachesTheCursor(After(w, run[..k]), run[k])
    ensures var w' := After(w, run[..k + 1]);
            w'.memory.procurement + 1 <= |w'.chain| && Covered(w'.chain[..w'.memory.procurement + 1], start, w'.records)
  {
    hide Next, Benign, Gapless, Covered, Anchored, Discover;
    forall j | 0 <= j < |run| && ReachesTheCursor(After(w, run[..j]), run[j])
      ensures Gapless(After(w, run[..j]).chain, After(w, run[..j]).memory, After(w, run[..j]).base, start, run[j].f)
    {
      var before := run[..j];
      assert forall i :: 0 <= i < |before| ==> before[..i] == run[..i];
      BenignRunKeepsAnchored(w, before, start);
      BenignStepIsGapless(After(w, before), run[j], start);
    }
    ReorgSafeCoverage(w, run, start, k);
  }

  lemma PrefixIsShared(a: seq<Block>, b: seq<Block>, n: nat)
    requires n <= |a| && n <= |b| && a[..n] == b[..n]
    ensures n <= Shared(a, b)
  {
    forall i | 0 <= i < n
      ensures a[i] == b[i]
    {
      assert a[..n][i] == b[..n][i];
    }
  }

  /** A reorganisation that keeps at least `n` blocks leaves the first `n` blocks of the base on the chain. */
  lemma HighForkKeepsTheBase(base: seq<Block>, c: Chain, m: Move, n: nat)
    requires CanMove(c, m) && n <= Shared(base, c) && n <= m.keep
    ensures n <= Shared(base, Moved(c, m))
  {
    var k, c' := Shared(base, c), Moved(c, m);
    assert base[..n] == base[..k][..n] == c[..k][..n] == c[..n] == c[..m.keep][..n] == c'[..n];
    PrefixIsShared(base, c', n);
  }

  // ---- the same from the moves of the chain alone ----

  function Least(a: nat, b: nat): nat {
    if a < b then a else b
  }

  /** How many of the blocks scanned for the cursors in memory, and for the saved ones, no reorganisation since that scan
      can have touched: the least number of blocks any of them kept. */
  function BlocksKept(w: World, run: seq<Step>): (nat, nat) {
    if run == [] then (Shared(w.base, w.chain), Shared(w.savedBase, w.chain))
    else
      var (kept, savedKept) := BlocksKept(w, run[..|run| - 1]);
      var before := After(w, run[..|run| - 1]);
      match run[|run| - 1]
      case ChainMoves(m) => if CanMove(before.chain, m) then (Least(kept, m.keep), Least(savedKept, m.keep)) else (kept, savedKept)
      case Cycle(f, shortlists, winners, ending) =>
        var (d, ms, saved) := CycleResult(before.chain, before.memory, before.records, f, shortlists, winners, ending);
        var now := if d.scanned then SafeTo(before.chain) + 1 else kept;
        (now, if saved then now else savedKept)
      case Restart => (savedKept, savedKept)
  }

  lemma {:induction false} KeptBlocksAreShared(w: World, run: seq<Step>)
    ensures BlocksKept(w, run).0 <= Shared(After(w, run).base, After(w, run).chain)
    ensures BlocksKept(w, run).1 <= Shared(After(w, run).savedBase, After(w, run).chain)
  {
    hide Shared, CycleResult;
    if run != [] {
      var front := run[..|run| - 1];
      KeptBlocksAreShared(w, front);
      var before := After(w, front);
      match run[|run| - 1]
      case ChainMoves(m) =>
        if CanMove(before.chain, m) {
          var kept := BlocksKept(w, front);
          HighForkKeepsTheBase(before.base, before.chain, m, Least(kept.0, m.keep));
          HighForkKeepsTheBase(before.savedBase, before.chain, m, Least(kept.1, m.keep));
        }
      case Cycle(_, _, _, _) =>
        var scanned := before.chain[..SafeTo(before.chain) + 1];
        PrefixIsShared(scanned, before.chain, |scanned|);
      case Restart =>
    }
  }

  /** At each cycle, the reorganisations since the blocks were scanned kept more blocks than any rewind target used. */
  ghost predicate HighForksRun(w: World, run: seq<Step>) {
    forall k :: 0 <= k < |run| && run[k].Cycle? ==> BenignCycle(After(w, run[..k]), run[k].f, BlocksKept(w, run[..k]).0)
  }

  lemma MoreOnChainIsBenign(w: World, f: Faults, onChain: nat, more: nat)
    requires BenignCycle(w, f, onChain) && onChain <= more
    ensures BenignCycle(w, f, more)
  {
    hide SkipsTail, RewoundTo;
  }

  /** If every reorganisation forks at or above each rewind target used after it, the monitor misses nothing. */
  lemma HighForksMissNothing(w: World, run: seq<Step>, start: nat, k: nat)
    requires Initial(w, start) && start > 0 && HighForksRun(w, run)
    requires k < |run| && ReachesTheCursor(After(w, run[..k]), run[k])
    ensures var w' := After(w, run[..k + 1]);
            w'.memory.procurement + 1 <= |w'.chain| && Covered(w'.chain[..w'.memory.procurement + 1], start, w'.records)
  {
    hide After, BenignCycle, Covered, ReachesTheCursor, BlocksKept;
    forall j | 0 <= j < |run|
      ensures Benign(After(w, run[..j]), run[j])
    {
      if run[j].Cycle? {
        KeptBlocksAreShared(w, run[..j]);
        var mid := After(w, run[..j]);
        MoreOnChainIsBenign(mid, run[j].f, BlocksKept(w, run[..j]).0, Shared(mid.base, mid.chain));
      }
    }
    BenignRunsMissNothing(w, run, start, k);
  }

  /** An ordinary deep reorganisation, seen together with a lower head, is benign: the fork at 9500 is far above both targets. */
  lemma ReorganisationWithLowerHeadIsBenign(w: World, f: Faults)
    requires Head(w.chain) == 9990 && w.memory.observedHead == 10000 && w.memory.procurement == 9976
    requires |w.base| == 9977 && Shared(w.base, w.chain) == 9501
    requires w.memory.anchors == [Anchor(ProcurementKey, 9976, Some(HashOf(w.base)))]
    requires f.replies == [] && f.anchorOk
    ensures BenignCycle(w, f, 9501)
  {
    WithoutRefusalsNothingIsSkipped(Resume(w.chain, w.memory, f), SafeTo(w.chain), f.replies, 0);
  }

  // ---- what goes wrong without them ----

  /** A rolled back head can push a lagging cursor forward, past blocks nobody has scanned. */
  lemma HeadRollbackLeavesAGap(c: Chain, f: Faults)
    requires Head(c) == 4000
    ensures !Gapless(c, Cursors(100, 0, 0, 5000, []), [], 100, f)
  {
  }

  /** A cursor that is rewound to zero, or starts there, restarts a thousand blocks below the head. */
  lemma ZeroCursorLeavesAGap(c: Chain, f: Faults)
    requires Head(c) == 4000
    ensures !Gapless(c, Cursors(0, 0, 0, 4000, []), [], 0, f)
  {
  }

  /** If the read of the new anchor failed after the cursor advanced from block 100 to 200, a fork between
      the two goes unnoticed. */
  lemma StaleAnchorLeavesAGap(c: Chain, base: seq<Block>, f: Faults)
    requires Head(c) == 4000 && |base| == 201 && Shared(base, c) == 150 && f.hashReads > 0
    ensures !Gapless(c, Cursors(200, 0, 0, 4000, [Anchor(ProcurementKey, 100, Some(HashOf(base[..101])))]), base, 50, f)
  {
    var a := Anchor(ProcurementKey, 100, Some(HashOf(base[..101])));
    assert base[..101] == base[..150][..101] == c[..150][..101] == c[..101];
    var ms := Cursors(200, 0, 0, 4000, [a]);
    ReconcileIsRewoundTo(c, ms, [a], f.hashReads);
    assert [a][1..] == [];
  }
}

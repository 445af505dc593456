/** Which winner designation counts when several have been seen. */
module Settlement {
  import opened Basics
  import opened Sorting

  const FINALITY_DEPTH := 12

  /** One recorded WinnerDesignated event; `finalized` is judged when it is recorded and never read again. */
  datatype Evidence = Evidence(winner: Option<string>, source: Option<string>, blockNumber: Option<nat>, finalized: bool)

  datatype Verdict = Verdict(selected: Option<string>, source: Option<string>, blockNumber: Option<nat>, conflicting: seq<Evidence>)

  function IsFinalizedBlock(eventBlock: int, currentBlock: int): bool {
    currentBlock - eventBlock >= FINALITY_DEPTH
  }

  function BlockOf(e: Evidence): nat {
    OrElse(e.blockNumber, 0)
  }

  /** Higher blocks first. */
  predicate NotBelow(a: Evidence, b: Evidence) {
    BlockOf(a) >= BlockOf(b)
  }

  function WinnerText(e: Evidence): string {
    Lower(OrElse(e.winner, "null"))
  }

  function Disagreeing(evidence: seq<Evidence>, top: Evidence): seq<Evidence> {
    if evidence == [] then []
    else (if WinnerText(evidence[0]) != WinnerText(top) then [evidence[0]] else []) + Disagreeing(evidence[1..], top)
  }

  function ReconcileWinnerEvidence(evidence: seq<Evidence>): Verdict {
    if evidence == [] then Verdict(None, None, None, [])
    else
      var sorted := Sort(evidence, NotBelow);
      SortPermutes(evidence, NotBelow);
      var top := sorted[0];
      Verdict(top.winner, Some(OrElse(top.source, "unknown")), Some(BlockOf(top)), Disagreeing(sorted, top))
  }

  lemma NotBelowIsTotal()
    ensures TotalPreorder(NotBelow)
  {
  }

  /** The verdict is about the first-recorded evidence in the highest block. */
  lemma FirstInHighestBlockWins(evidence: seq<Evidence>) returns (k: nat)
    requires evidence != []
    ensures k < |evidence|
    ensures forall j :: 0 <= j < |evidence| ==> BlockOf(evidence[j]) <= BlockOf(evidence[k])
    ensures forall j :: 0 <= j < k ==> BlockOf(evidence[j]) < BlockOf(evidence[k])
    ensures ReconcileWinnerEvidence(evidence).selected == evidence[k].winner
    ensures ReconcileWinnerEvidence(evidence).source == Some(OrElse(evidence[k].source, "unknown"))
    ensures ReconcileWinnerEvidence(evidence).blockNumber == Some(BlockOf(evidence[k]))
  {
    NotBelowIsTotal();
    SortPermutes(evidence, NotBelow);
    k := SortStartsWithFirstLeast(evidence, NotBelow);
    assert forall j :: 0 <= j < |evidence| ==> NotBelow(evidence[k], evidence[j]);
    assert forall j :: 0 <= j < k ==> !NotBelow(evidence[j], evidence[k]);
  }

  /** The same event, whatever its finality was judged to be. */
  predicate SameEvent(a: Evidence, b: Evidence) {
    a.winner == b.winner && a.source == b.source && a.blockNumber == b.blockNumber
  }

  predicate Seen(e: Evidence, evidence: seq<Evidence>) {
    exists i :: 0 <= i < |evidence| && SameEvent(e, evidence[i])
  }

  predicate SameSelection(a: Verdict, b: Verdict) {
    a.selected == b.selected && a.source == b.source && a.blockNumber == b.blockNumber
  }

  /** Recording events again that have been recorded before changes nothing, however often and in whatever order. */
  lemma ReplaysChangeNothing(evidence: seq<Evidence>, replay: seq<Evidence>)
    requires forall j :: 0 <= j < |replay| ==> Seen(replay[j], evidence)
    ensures SameSelection(ReconcileWinnerEvidence(evidence + replay), ReconcileWinnerEvidence(evidence))
  {
    if replay == [] {
      assert evidence + replay == evidence;
    } else {
      assert Seen(replay[0], evidence);
      hide ReconcileWinnerEvidence;
      var all := evidence + replay;
      var k := FirstInHighestBlockWins(evidence);
      var k' := FirstInHighestBlockWins(all);
      assert all[k] == evidence[k];
      forall j | 0 <= j < |replay|
        ensures BlockOf(replay[j]) <= BlockOf(evidence[k])
      {
        var i :| 0 <= i < |evidence| && SameEvent(replay[j], evidence[i]);
      }
      assert k' <= k;
    }
  }

  /** When the events come from distinct blocks, the order in which they were recorded does not matter. */
  lemma OrderDoesNotMatter(a: seq<Evidence>, b: seq<Evidence>)
    requires multiset(a) == multiset(b)
    requires forall i, j :: 0 <= i < j < |a| ==> BlockOf(a[i]) != BlockOf(a[j])
    ensures ReconcileWinnerEvidence(a) == ReconcileWinnerEvidence(b)
  {
    NotBelowIsTotal();
    forall x, y | x in a && y in a && NotBelow(x, y) && NotBelow(y, x)
      ensures x == y
    {
    }
    SortForgetsOrder(a, b, NotBelow);
    assert |a| == |multiset(a)| == |multiset(b)| == |b|;
  }

  /** Within one block the first record wins, so there the order does matter. */
  lemma TiesGoToTheFirstRecord(winner: string, other: string, block: nat)
    requires winner != other
    ensures var a := Evidence(Some(winner), None, Some(block), true);
            var b := Evidence(Some(other), None, Some(block), true);
            ReconcileWinnerEvidence([a, b]).selected == Some(winner) && ReconcileWinnerEvidence([b, a]).selected == Some(other)
  {
    var a := Evidence(Some(winner), None, Some(block), true);
    var b := Evidence(Some(other), None, Some(block), true);
    var i := FirstInHighestBlockWins([a, b]);
    var j := FirstInHighestBlockWins([b, a]);
  }

  /** Finality is never taken back by a growing chain. */
  lemma FinalityIsStable(eventBlock: int, currentBlock: int, later: int)
    requires currentBlock <= later
    ensures IsFinalizedBlock(eventBlock, currentBlock) ==> IsFinalizedBlock(eventBlock, later)
  {
  }

  // ---- the monitor's loop ----

  datatype Designation = Designation(procurementId: nat, winner: string, blockNumber: nat)

  /** What the state of a procurement says about its winner. */
  datatype Tracked = Tracked(evidence: seq<Evidence>, selected: Option<bool>)

  function EvidenceOf(e: Designation, currentBlock: int): Evidence {
    Evidence(Some(e.winner), Some("event:WinnerDesignated"), Some(e.blockNumber), IsFinalizedBlock(e.blockNumber, currentBlock))
  }

  function Observed(t: Tracked, e: Designation, currentBlock: int, me: string): Tracked {
    var evidence := t.evidence + [EvidenceOf(e, currentBlock)];
    Tracked(evidence, Some(ReconcileWinnerEvidence(evidence).selected == Some(me)))
  }

  /** Each event reaches the state of its procurement; one that is not tracked is skipped. */
  function ObserveAll(states: map<nat, Tracked>, events: seq<Designation>, currentBlock: int, me: string): map<nat, Tracked> {
    if events == [] then states
    else
      var before := ObserveAll(states, events[..|events| - 1], currentBlock, me);
      var e := events[|events| - 1];
      if e.procurementId in before then before[e.procurementId := Observed(before[e.procurementId], e, currentBlock, me)] else before
  }

  /** The loop over the scanned events, each state written as its event is met; handling one can fail. */
  method DetectWinnerDesignations(states: map<nat, Tracked>, events: seq<Designation>, currentBlock: int, me: string, handled: nat)
    returns (after: map<nat, Tracked>, ok: bool)
    ensures ok == (|events| <= handled)
    ensures after == ObserveAll(states, if ok then events else events[..handled], currentBlock, me)
  {
    hide ReconcileWinnerEvidence;
    after := states;
    var i := 0;
    while i < |events|
      invariant i <= |events| && i <= handled
      invariant after == ObserveAll(states, events[..i], currentBlock, me)
    {
      if i == handled {
        return after, false;
      }
      var evt := events[i];
      assert events[..i + 1][..i] == events[..i];
      i := i + 1;
      var finalized := IsFinalizedBlock(evt.blockNumber, currentBlock);
      if evt.procurementId !in after {
        continue;
      }
      var state := after[evt.procurementId];
      var evidence := state.evidence + [Evidence(Some(evt.winner), Some("event:WinnerDesignated"), Some(evt.blockNumber), finalized)];
      var reconciled := ReconcileWinnerEvidence(evidence);
      after := after[evt.procurementId := Tracked(evidence, Some(reconciled.selected == Some(me)))];
    }
    assert events[..|events|] == events;
    ok := true;
  }

  function EventsOf(id: nat, events: seq<Designation>): seq<Designation> {
    if events == [] then []
    else EventsOf(id, events[..|events| - 1]) + if events[|events| - 1].procurementId == id then [events[|events| - 1]] else []
  }

  function Recorded(events: seq<Designation>, currentBlock: int): seq<Evidence> {
    seq(|events|, i requires 0 <= i < |events| => EvidenceOf(events[i], currentBlock))
  }

  /** A tracked procurement gets exactly its own events, in order, and is judged by all of its evidence; without events of
      its own it is left alone, and nothing new is tracked. */
  lemma {:induction false} EventsReachTheirProcurement(states: map<nat, Tracked>, events: seq<Designation>, currentBlock: int,
                                                       me: string, id: nat)
    ensures var after, own := ObserveAll(states, events, currentBlock, me), EventsOf(id, events);
            && (id in after <==> id in states)
            && (id in states ==>
                  && after[id].evidence == states[id].evidence + Recorded(own, currentBlock)
                  && after[id].selected == if own == [] then states[id].selected
                                           else Some(ReconcileWinnerEvidence(after[id].evidence).selected == Some(me)))
  {
    hide ReconcileWinnerEvidence, EvidenceOf;
    if events != [] {
      var front, e := events[..|events| - 1], events[|events| - 1];
      EventsReachTheirProcurement(states, front, currentBlock, me, id);
      var own := EventsOf(id, front);
      assert Recorded(own + [e], currentBlock) == Recorded(own, currentBlock) + [EvidenceOf(e, currentBlock)];
    }
  }

  /** The first of the highest events. */
  predicate FirstOfTheHighest(own: seq<Designation>, k: nat) {
    && k < |own|
    && (forall j :: 0 <= j < |own| ==> own[j].blockNumber <= own[k].blockNumber)
    && (forall j :: 0 <= j < k ==> own[j].blockNumber < own[k].blockNumber)
  }

  /** A procurement without evidence ends up selected exactly when the first of its events in the highest block names me;
      each event is recorded with its winner and block, and as final from twelve blocks below the head on. */
  lemma SelectedExactly(states: map<nat, Tracked>, events: seq<Designation>, currentBlock: int, me: string, id: nat) returns (k: nat)
    requires id in states && states[id].evidence == [] && EventsOf(id, events) != []
    ensures var own, after := EventsOf(id, events), ObserveAll(states, events, currentBlock, me);
            && FirstOfTheHighest(own, k)
            && id in after && |after[id].evidence| == |own|
            && after[id].selected == Some(own[k].winner == me)
            && forall j :: 0 <= j < |own| ==>
                 && after[id].evidence[j].winner == Some(own[j].winner)
                 && after[id].evidence[j].blockNumber == Some(own[j].blockNumber)
                 && (after[id].evidence[j].finalized <==> own[j].blockNumber + 12 <= currentBlock)
  {
    hide ReconcileWinnerEvidence, EventsOf, ObserveAll, Recorded, FirstOfTheHighest;
    EventsReachTheirProcurement(states, events, currentBlock, me, id);
    var own := EventsOf(id, events);
    assert [] + Recorded(own, currentBlock) == Recorded(own, currentBlock);
    k := RecordedDecides(own, currentBlock);
    RecordedSays(own, currentBlock);
  }

  lemma RecordedDecides(own: seq<Designation>, currentBlock: int) returns (k: nat)
    requires own != []
    ensures FirstOfTheHighest(own, k)
    ensures ReconcileWinnerEvidence(Recorded(own, currentBlock)).selected == Some(own[k].winner)
  {
    hide ReconcileWinnerEvidence;
    k := FirstInHighestBlockWins(Recorded(own, currentBlock));
    assert forall j :: 0 <= j < |own| ==> BlockOf(Recorded(own, currentBlock)[j]) == own[j].blockNumber;
  }

  lemma RecordedSays(own: seq<Designation>, currentBlock: int)
    ensures |Recorded(own, currentBlock)| == |own|
    ensures forall j :: 0 <= j < |own| ==>
              && Recorded(own, currentBlock)[j].winner == Some(own[j].winner)
              && Recorded(own, currentBlock)[j].blockNumber == Some(own[j].blockNumber)
              && (Recorded(own, currentBlock)[j].finalized <==> own[j].blockNumber + 12 <= currentBlock)
  {
  }

  lemma {:induction false} DisagreeingAre(evidence: seq<Evidence>, top: Evidence, e: Evidence)
    ensures e in Disagreeing(evidence, top) <==> e in evidence && WinnerText(e) != WinnerText(top)
  {
    hide WinnerText;
    if evidence != [] {
      DisagreeingAre(evidence[1..], top, e);
    }
  }

  /** The conflicting evidence is the evidence for another winner than the selected one, letter case aside. */
  lemma ConflictsAre(evidence: seq<Evidence>, e: Evidence)
    requires evidence != []
    ensures var v := ReconcileWinnerEvidence(evidence);
            e in v.conflicting <==> e in evidence && Lower(OrElse(e.winner, "null")) != Lower(OrElse(v.selected, "null"))
  {
    hide Sort, Disagreeing, Lower;
    SortPermutes(evidence, NotBelow);
    var sorted := Sort(evidence, NotBelow);
    DisagreeingAre(sorted, sorted[0], e);
  }

  /** A rescan that meets events again, at whatever head, leaves the selection as it was. */
  lemma RescansChangeNothing(known: seq<Evidence>, events: seq<Designation>, again: seq<Designation>, currentBlock: int, later: int)
    requires forall k :: 0 <= k < |again| ==> again[k] in events
    ensures var before := known + Recorded(events, currentBlock);
            SameSelection(ReconcileWinnerEvidence(before + Recorded(again, later)), ReconcileWinnerEvidence(before))
  {
    hide ReconcileWinnerEvidence;
    var before, replay := known + Recorded(events, currentBlock), Recorded(again, later);
    forall k | 0 <= k < |replay|
      ensures Seen(replay[k], before)
    {
      assert again[k] in events;
      var j :| 0 <= j < |events| && events[j] == again[k];
      assert SameEvent(replay[k], before[|known| + j]);
    }
    ReplaysChangeNothing(before, replay);
  }

  // ---- reorganisations: evidence is never dropped ----

  /** The first record in the highest block. */
  ghost predicate Decides(evidence: seq<Evidence>, k: int) {
    && 0 <= k < |evidence|
    && (forall j :: 0 <= j < |evidence| ==> BlockOf(evidence[j]) <= BlockOf(evidence[k]))
    && (forall j :: 0 <= j < k ==> BlockOf(evidence[j]) < BlockOf(evidence[k]))
  }

  ghost predicate IsAbout(v: Verdict, e: Evidence) {
    v.selected == e.winner && v.source == Some(OrElse(e.source, "unknown")) && v.blockNumber == Some(BlockOf(e))
  }

  lemma DecidingRecordIsSelected(evidence: seq<Evidence>, k: int)
    requires Decides(evidence, k)
    ensures IsAbout(ReconcileWinnerEvidence(evidence), evidence[k])
  {
    hide ReconcileWinnerEvidence;
    var k' := FirstInHighestBlockWins(evidence);
    assert k == k';
  }

  /** New evidence changes the selection exactly when some of it lies in a higher block than all that is known. */
  lemma OnlyAHigherBlockCorrects(evidence: seq<Evidence>, more: seq<Evidence>, k: nat)
    requires Decides(evidence, k)
    ensures SameSelection(ReconcileWinnerEvidence(evidence + more), ReconcileWinnerEvidence(evidence)) <==>
            forall j :: 0 <= j < |more| ==> BlockOf(more[j]) <= BlockOf(evidence[k])
  {
    hide ReconcileWinnerEvidence;
    var all := evidence + more;
    DecidingRecordIsSelected(evidence, k);
    var k' := FirstInHighestBlockWins(all);
    assert all[k] == evidence[k];
    assert forall j :: 0 <= j < |more| ==> all[|evidence| + j] == more[j];
    if forall j :: 0 <= j < |more| ==> BlockOf(more[j]) <= BlockOf(evidence[k]) {
      assert Decides(all, k);
      DecidingRecordIsSelected(all, k);
    }
  }

  /** The evidence whose event is on the current chain. */
  function OnChain(evidence: seq<Evidence>, live: Evidence -> bool): seq<Evidence> {
    if evidence == [] then []
    else OnChain(evidence[..|evidence| - 1], live) + if live(evidence[|evidence| - 1]) then [evidence[|evidence| - 1]] else []
  }

  /** The first record of the current chain in its highest block. */
  ghost predicate DecidesOnChain(evidence: seq<Evidence>, live: Evidence -> bool, top: int) {
    && 0 <= top < |evidence| && live(evidence[top])
    && (forall j :: 0 <= j < |evidence| && live(evidence[j]) ==> BlockOf(evidence[j]) <= BlockOf(evidence[top]))
    && (forall j :: 0 <= j < top && live(evidence[j]) ==> BlockOf(evidence[j]) < BlockOf(evidence[top]))
  }

  lemma {:induction false} OnChainDecides(evidence: seq<Evidence>, live: Evidence -> bool, top: int) returns (k: nat)
    requires DecidesOnChain(evidence, live, top)
    ensures Decides(OnChain(evidence, live), k) && OnChain(evidence, live)[k] == evidence[top]
  {
    var front, last := evidence[..|evidence| - 1], evidence[|evidence| - 1];
    if top == |evidence| - 1 {
      k := |OnChain(front, live)|;
      forall j | 0 <= j < k
        ensures BlockOf(OnChain(front, live)[j]) < BlockOf(last)
      {
        OnChainIsFromEvidence(front, live, j);
      }
    } else {
      assert DecidesOnChain(front, live, top);
      k := OnChainDecides(front, live, top);
    }
  }

  lemma {:induction false} OnChainIsFromEvidence(evidence: seq<Evidence>, live: Evidence -> bool, j: nat)
    requires j < |OnChain(evidence, live)|
    ensures exists i :: 0 <= i < |evidence| && live(evidence[i]) && evidence[i] == OnChain(evidence, live)[j]
  {
    var front := evidence[..|evidence| - 1];
    if j < |OnChain(front, live)| {
      OnChainIsFromEvidence(front, live, j);
      var i :| 0 <= i < |front| && live(front[i]) && front[i] == OnChain(front, live)[j];
      assert evidence[i] == front[i];
    } else {
      assert live(evidence[|evidence| - 1]);
    }
  }

  /** After reorganisations the selection is that of the current chain if and only if no orphaned record lies in a higher
      block than the chain's own, and the first record of that block says what the chain's does. `top` is the record that
      decides on the chain, `first` the first one in its block. */
  lemma SelectionFollowsTheChainExactly(evidence: seq<Evidence>, live: Evidence -> bool, top: nat, first: nat)
    requires DecidesOnChain(evidence, live, top)
    requires first <= top && BlockOf(evidence[first]) == BlockOf(evidence[top])
    requires forall j :: 0 <= j < first ==> BlockOf(evidence[j]) != BlockOf(evidence[top])
    ensures SameSelection(ReconcileWinnerEvidence(evidence), ReconcileWinnerEvidence(OnChain(evidence, live))) <==>
            && (forall j :: 0 <= j < |evidence| ==> BlockOf(evidence[j]) <= BlockOf(evidence[top]))
            && evidence[first].winner == evidence[top].winner
            && OrElse(evidence[first].source, "unknown") == OrElse(evidence[top].source, "unknown")
  {
    hide ReconcileWinnerEvidence;
    var k := OnChainDecides(evidence, live, top);
    DecidingRecordIsSelected(OnChain(evidence, live), k);
    var d := FirstInHighestBlockWins(evidence);
    if forall j :: 0 <= j < |evidence| ==> BlockOf(evidence[j]) <= BlockOf(evidence[top]) {
      assert Decides(evidence, first);
      DecidingRecordIsSelected(evidence, first);
    }
  }

  /** A winner designated in a block that is then orphaned stays selected when the chain designates another one lower. */
  lemma OrphanStaysSelected(orphan: string, winner: string, block: nat, lower: nat, currentBlock: int)
    requires lower < block
    ensures var known := Recorded([Designation(0, orphan, block)], currentBlock);
            ReconcileWinnerEvidence(known + Recorded([Designation(0, winner, lower)], currentBlock)).selected == Some(orphan)
  {
    var known := Recorded([Designation(0, orphan, block)], currentBlock);
    DecidingRecordIsSelected(known, 0);
    OnlyAHigherBlockCorrects(known, Recorded([Designation(0, winner, lower)], currentBlock), 0);
  }
}

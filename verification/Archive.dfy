/** The capability archive: item files, an index over them, and ranked search in the index. */
module Archive {
  import opened Basics
  import opened Commitments
  import opened Sorting

  /** What an index entry and an item file have in common, scores as reals. */
  datatype Fields = Fields(
    title: string, summary: string, tags: seq<string>, phase: Option<string>,
    domain: Option<string>, deliverableType: Option<string>,
    qualityScore: Option<real>, wasAccepted: Option<bool>, outcomeStatus: Option<string>, outcomeScore: Option<real>)

  datatype Entry = Entry(id: string, fields: Fields)

  /** An outcome report; None leaves a field as it is. */
  datatype Outcome = Outcome(qualityScore: Option<real>, wasAccepted: Option<bool>, outcomeStatus: Option<string>)

  type Index = seq<Entry>
  type Items = map<string, Fields>

  function Report(f: Fields, o: Outcome): Fields {
    f.(qualityScore := if o.qualityScore.Some? then o.qualityScore else f.qualityScore,
       wasAccepted := if o.wasAccepted.Some? then o.wasAccepted else f.wasAccepted,
       outcomeStatus := if o.outcomeStatus.Some? then o.outcomeStatus else f.outcomeStatus)
  }

  function ReportInIndex(index: Index, id: string, o: Outcome): Index {
    seq(|index|, i requires 0 <= i < |index| =>
      if index[i].id == id then Entry(id, Report(index[i].fields, o)) else index[i])
  }

  predicate Indexed(index: Index, id: string) {
    exists i :: 0 <= i < |index| && index[i].id == id
  }

  function ReportInItems(items: Items, id: string, o: Outcome): Items {
    if id in items then items[id := Report(items[id], o)] else items
  }

  // ---- search ----

  datatype Ranked = Ranked(entry: Entry, keywordScore: nat, score: real)

  function JoinWords(words: seq<string>): string {
    if words == [] then "" else if |words| == 1 then words[0] else words[0] + " " + JoinWords(words[1..])
  }

  function SearchText(f: Fields): string {
    Lower(JoinWords([f.title, f.summary] + f.tags + [OrElse(f.phase, ""), OrElse(f.domain, ""), OrElse(f.deliverableType, "")]))
  }

  predicate Contains(text: string, word: string) {
    exists i :: 0 <= i <= |text| && word <= text[i..]
  }

  function KeywordScore(text: string, keywords: seq<string>): nat {
    if keywords == [] then 0 else (if Contains(text, Lower(keywords[0])) then 1 else 0) + KeywordScore(text, keywords[1..])
  }

  function Quality(f: Fields): real {
    OrElse(f.qualityScore, OrElse(f.outcomeScore, 0.0))
  }

  function ScoreArchiveEntry(e: Entry, keywords: seq<string>): Ranked {
    var hits := KeywordScore(SearchText(e.fields), keywords);
    var quality := Quality(e.fields);
    Ranked(e, hits, hits as real + (if e.fields.wasAccepted == Some(true) then 5.0 else 0.0)
                    + (if quality > 0.0 then quality * 2.0 else 0.0))
  }

  predicate InPhase(e: Entry, phase: Option<string>) {
    phase.None? || phase.value == "" || e.fields.phase == phase || phase.value in e.fields.tags
  }

  predicate Eligible(r: Ranked) {
    r.keywordScore > 0 || r.entry.fields.wasAccepted == Some(true) || OrElse(r.entry.fields.qualityScore, 0.0) > 0.0
  }

  predicate HigherFirst(a: Ranked, b: Ranked) {
    a.score >= b.score
  }

  /** The scored entries of the phase that qualify, in index order. */
  function Candidates(index: Index, phase: Option<string>, keywords: seq<string>): seq<Ranked> {
    if index == [] then []
    else
      var e := index[|index| - 1];
      var r := ScoreArchiveEntry(e, keywords);
      Candidates(index[..|index| - 1], phase, keywords) + if InPhase(e, phase) && Eligible(r) then [r] else []
  }

  function Search(index: Index, phase: Option<string>, keywords: seq<string>, maxResults: nat): seq<Ranked> {
    Upto(Sort(Candidates(index, phase, keywords), HigherFirst), maxResults)
  }

  // ---- the archive ----

  /** The procurement an item belongs to; a job without one gets a procurement name of its own. */
  function EffectiveProcurement(procurementId: Option<string>, jobId: Option<string>): string {
    if procurementId.Some? then procurementId.value
    else if jobId.Some? && jobId.value != "" then "job_" + jobId.value
    else ""
  }

  function EffectiveSource(source: Option<string>, procurementId: Option<string>): string {
    OrElse(source, if "job_" <= OrElse(procurementId, "") then "v1" else "prime")
  }

  function SafeChar(c: char): char {
    if 'a' <= c <= 'z' || 'A' <= c <= 'Z' || '0' <= c <= '9' || c == '_' || c == '-' then c else '_'
  }

  function SafePhase(phase: Option<string>): string {
    var text := OrElse(phase, "unknown");
    seq(|text|, i requires 0 <= i < |text| => SafeChar(text[i]))
  }

  /** Item ids carry the clock reading of the extraction, in milliseconds. */
  function ItemId(source: string, procurementId: string, safePhase: string, now: nat): string {
    source + "_" + procurementId + "_" + safePhase + "_" + Digits(now)
  }

  /** Items of one procurement and phase have different ids exactly when they are extracted at different times. */
  lemma ClockKeepsIdsApart(source: string, procurementId: string, safePhase: string, now: nat, later: nat)
    ensures ItemId(source, procurementId, safePhase, now) == ItemId(source, procurementId, safePhase, later) <==> now == later
  {
    var prefix := source + "_" + procurementId + "_" + safePhase + "_";
    if ItemId(source, procurementId, safePhase, now) == ItemId(source, procurementId, safePhase, later) {
      assert (prefix + Digits(now))[|prefix|..] == Digits(now);
      assert (prefix + Digits(later))[|prefix|..] == Digits(later);
      DigitsInjective(now, later);
    }
  }

  class CapabilityArchive {
    var index: Index
    var items: Items
    /** The stepping stone file of each procurement and phase names the item last extracted. */
    var steppingStones: map<(string, string), string>

    constructor ()
      ensures index == [] && items == map[] && steppingStones == map[]
    {
      index := [];
      items := map[];
      steppingStones := map[];
    }

    /** extractSteppingStone: the item file first, then the procurement's stepping stone file, then the index. Without a
        procurement or job it throws before writing anything. */
    method ExtractSteppingStone(source: Option<string>, procurementId: Option<string>, jobId: Option<string>,
                                fields: Fields, now: nat)
      returns (id: Option<string>)
      modifies this
      ensures id.None? <==> EffectiveProcurement(procurementId, jobId) == ""
      ensures id.None? ==> items == old(items) && index == old(index) && steppingStones == old(steppingStones)
      ensures id.Some? ==>
                var owner := EffectiveProcurement(procurementId, jobId);
                && id.value == ItemId(EffectiveSource(source, procurementId), owner, SafePhase(fields.phase), now)
                && items == old(items)[id.value := fields] && index == old(index) + [Entry(id.value, fields)]
                && steppingStones == old(steppingStones)[(owner, SafePhase(fields.phase)) := id.value]
    {
      var effectiveSource := EffectiveSource(source, procurementId);
      var owner := EffectiveProcurement(procurementId, jobId);
      if owner == "" {
        return None;
      }
      var safePhase := SafePhase(fields.phase);
      var itemId := ItemId(effectiveSource, owner, safePhase, now);
      items := items[itemId := fields];
      steppingStones := steppingStones[(owner, safePhase) := itemId];
      index := index + [Entry(itemId, fields)];
      id := Some(itemId);
    }

    /** updateArchiveOutcome: the index first, then the item file if there is one. */
    method UpdateArchiveOutcome(id: string, o: Outcome) returns (updated: bool)
      modifies this
      ensures updated == Indexed(old(index), id)
      ensures index == ReportInIndex(old(index), id, o)
      ensures items == if updated then ReportInItems(old(items), id, o) else old(items)
      ensures steppingStones == old(steppingStones)
    {
      updated := false;
      var entries: Index := [];
      for i := 0 to |index|
        invariant index == old(index) && items == old(items) && steppingStones == old(steppingStones)
        invariant |entries| == i && entries == ReportInIndex(index, id, o)[..i]
        invariant updated <==> Indexed(index[..i], id)
      {
        var entry := index[i];
        assert Indexed(index[..i + 1], id) <==> Indexed(index[..i], id) || entry.id == id by {
          assert index[..i + 1] == index[..i] + [entry];
          IndexedAppend(index[..i], entry, id);
        }
        if entry.id == id {
          updated := true;
          entries := entries + [Entry(id, Report(entry.fields, o))];
        } else {
          entries := entries + [entry];
        }
      }
      assert index[..|index|] == index;
      if !updated {
        NotIndexedUnchanged(index, id, o);
        return;
      }
      index := entries;
      if id in items {
        items := items[id := Report(items[id], o)];
      }
    }

    method SearchArchive(phase: Option<string>, keywords: seq<string>, maxResults: nat) returns (results: seq<Ranked>)
      ensures results == Search(index, phase, keywords, maxResults)
    {
      hide ScoreArchiveEntry, InPhase, Eligible;
      if |index| == 0 {
        assert index == [] && Candidates(index, phase, keywords) == [];
        return [];
      }
      var candidates: seq<Ranked> := [];
      for i := 0 to |index|
        invariant candidates == Candidates(index[..i], phase, keywords)
      {
        assert index[..i + 1][..i] == index[..i];
        var scored := ScoreArchiveEntry(index[i], keywords);
        if InPhase(index[i], phase) && Eligible(scored) {
          candidates := candidates + [scored];
        }
      }
      assert index[..|index|] == index;
      var ranked := Sort(candidates, HigherFirst);
      results := Upto(ranked, maxResults);
    }
  }

  lemma IndexedAppend(index: Index, e: Entry, id: string)
    ensures Indexed(index + [e], id) <==> Indexed(index, id) || e.id == id
  {
    var longer := index + [e];
    assert longer[|index|] == e;
    if Indexed(index, id) {
      var i :| 0 <= i < |index| && index[i].id == id;
      assert longer[i].id == id;
    }
    if Indexed(longer, id) && e.id != id {
      var i :| 0 <= i < |longer| && longer[i].id == id;
      assert index[i].id == id;
    }
  }

  lemma NotIndexedUnchanged(index: Index, id: string, o: Outcome)
    requires !Indexed(index, id)
    ensures ReportInIndex(index, id, o) == index
  {
    assert forall i :: 0 <= i < |index| ==> index[i].id != id;
  }

  // ---- index and items ----

  /** Every index entry has an item file with equal fields. */
  ghost predicate Agrees(index: Index, items: Items) {
    forall i :: 0 <= i < |index| ==> index[i].id in items && items[index[i].id] == index[i].fields
  }

  /** Extracting under an id keeps the agreement exactly when no entry of that id says something else. */
  lemma ExtractKeepsAgreementExactly(index: Index, items: Items, id: string, fields: Fields)
    requires Agrees(index, items)
    ensures Agrees(index + [Entry(id, fields)], items[id := fields]) <==>
            forall i :: 0 <= i < |index| && index[i].id == id ==> index[i].fields == fields
  {
    var longer := index + [Entry(id, fields)];
    assert forall i :: 0 <= i < |index| ==> longer[i] == index[i];
  }

  /** An extraction that dies between the two writes leaves an item without an entry. */
  lemma InterruptedExtractIsHarmless(index: Index, items: Items, id: string, fields: Fields)
    requires Agrees(index, items) && !Indexed(index, id)
    ensures Agrees(index, items[id := fields])
  {
  }

  lemma UpdateKeepsAgreement(index: Index, items: Items, id: string, o: Outcome)
    requires Agrees(index, items)
    ensures Agrees(ReportInIndex(index, id, o), if Indexed(index, id) then ReportInItems(items, id, o) else items)
  {
  }

  /** An update that dies between the two writes breaks the agreement exactly when it reports something new. */
  lemma InterruptedUpdateBreaksExactly(index: Index, items: Items, id: string, o: Outcome)
    requires Agrees(index, items)
    ensures Agrees(ReportInIndex(index, id, o), items) <==>
            forall i :: 0 <= i < |index| && index[i].id == id ==> Report(index[i].fields, o) == index[i].fields
  {
    var index' := ReportInIndex(index, id, o);
    assert forall i :: 0 <= i < |index| && index[i].id == id ==> index'[i].fields == Report(index[i].fields, o);
    if Agrees(index', items) {
      forall i | 0 <= i < |index| && index[i].id == id
        ensures Report(index[i].fields, o) == index[i].fields
      {
        assert items[index'[i].id] == index'[i].fields;
      }
    }
  }

  datatype Op = Extract(id: string, fields: Fields) | ExtractDies(id: string, fields: Fields) | Update(id: string, outcome: Outcome)

  function Perform(index: Index, items: Items, op: Op): (Index, Items) {
    match op
    case Extract(id, fields) => (index + [Entry(id, fields)], items[id := fields])
    case ExtractDies(id, fields) => (index, items[id := fields])
    case Update(id, o) => (ReportInIndex(index, id, o), if Indexed(index, id) then ReportInItems(items, id, o) else items)
  }

  function PerformAll(ops: seq<Op>): (Index, Items) {
    if ops == [] then ([], map[])
    else
      var (index, items) := PerformAll(ops[..|ops| - 1]);
      Perform(index, items, ops[|ops| - 1])
  }

  /** Extractions use ids that are not in the index yet. */
  ghost predicate FreshIds(ops: seq<Op>) {
    forall k :: 0 <= k < |ops| && (ops[k].Extract? || ops[k].ExtractDies?) ==> !Indexed(PerformAll(ops[..k]).0, ops[k].id)
  }

  /** After any sequence of updates and of extractions under fresh ids, interrupted or not, index and items agree. */
  lemma {:induction false} IndexAgreesWithItems(ops: seq<Op>)
    requires FreshIds(ops)
    ensures Agrees(PerformAll(ops).0, PerformAll(ops).1)
  {
    hide Agrees, ReportInIndex, ReportInItems, Indexed;
    if ops == [] {
      NothingAgrees();
    } else {
      var front := ops[..|ops| - 1];
      assert forall k :: 0 <= k < |front| ==> front[..k] == ops[..k];
      IndexAgreesWithItems(front);
      var (index, items) := PerformAll(front);
      match ops[|ops| - 1]
      case Extract(id, fields) =>
        NoSuchEntry(index, id, fields);
        ExtractKeepsAgreementExactly(index, items, id, fields);
      case ExtractDies(id, fields) => InterruptedExtractIsHarmless(index, items, id, fields);
      case Update(id, o) => UpdateKeepsAgreement(index, items, id, o);
    }
  }

  lemma NothingAgrees()
    ensures Agrees([], map[])
  {
  }

  lemma NoSuchEntry(index: Index, id: string, fields: Fields)
    requires !Indexed(index, id)
    ensures forall i :: 0 <= i < |index| && index[i].id == id ==> index[i].fields == fields
  {
  }

  // ---- search ----

  /** The index as it would be rebuilt from the item files. */
  function Reread(index: Index, items: Items): Index
    requires forall i :: 0 <= i < |index| ==> index[i].id in items
  {
    seq(|index|, i requires 0 <= i < |index| => Entry(index[i].id, items[index[i].id]))
  }

  /** Searching the index is searching the item files. */
  lemma SearchSeesTheItems(ops: seq<Op>, phase: Option<string>, keywords: seq<string>, maxResults: nat)
    requires FreshIds(ops)
    ensures var (index, items) := PerformAll(ops);
            && (forall i :: 0 <= i < |index| ==> index[i].id in items)
            && Search(index, phase, keywords, maxResults) == Search(Reread(index, items), phase, keywords, maxResults)
  {
    hide Search;
    IndexAgreesWithItems(ops);
    var (index, items) := PerformAll(ops);
    assert Reread(index, items) == index;
  }

  lemma {:induction false} CandidatesAre(index: Index, phase: Option<string>, keywords: seq<string>, r: Ranked)
    ensures r in Candidates(index, phase, keywords) <==>
            InPhase(r.entry, phase) && Eligible(r) && exists i :: 0 <= i < |index| && r == ScoreArchiveEntry(index[i], keywords)
  {
    hide ScoreArchiveEntry, InPhase, Eligible;
    if index != [] {
      CandidatesAre(index[..|index| - 1], phase, keywords, r);
      EntryIsKept(index[|index| - 1], keywords);
    }
  }

  lemma EntryIsKept(e: Entry, keywords: seq<string>)
    ensures ScoreArchiveEntry(e, keywords).entry == e
  {
  }

  lemma HigherFirstIsTotal()
    ensures TotalPreorder(HigherFirst)
  {
  }

  /** Search returns at most `maxResults` of the candidates, best first; what it omits scores no higher than anything it
      returns, and it omits nothing while there is room. */
  lemma SearchReturnsTheBest(index: Index, phase: Option<string>, keywords: seq<string>, maxResults: nat)
    returns (omitted: seq<Ranked>)
    ensures var results := Search(index, phase, keywords, maxResults);
            && |results| <= maxResults && Sorted(results, HigherFirst)
            && multiset(results) + multiset(omitted) == multiset(Candidates(index, phase, keywords))
            && (forall i, j :: 0 <= i < |results| && 0 <= j < |omitted| ==> results[i].score >= omitted[j].score)
            && (|results| < maxResults ==> omitted == [])
  {
    hide Candidates, Sort;
    var candidates := Candidates(index, phase, keywords);
    var ranked := Sort(candidates, HigherFirst);
    HigherFirstIsTotal();
    SortSorts(candidates, HigherFirst);
    SortPermutes(candidates, HigherFirst);
    var results := Upto(ranked, maxResults);
    omitted := ranked[|results|..];
    assert ranked == results + omitted;
    forall i, j | 0 <= i < |results| && 0 <= j < |omitted|
      ensures results[i].score >= omitted[j].score
    {
      assert HigherFirst(ranked[i], ranked[|results| + j]);
    }
  }

  /** Entries of equal score stay in index order: the whole ranking lists them as the candidates do. */
  lemma TiesKeepIndexOrder(index: Index, phase: Option<string>, keywords: seq<string>, x: Ranked)
    ensures RankedWith(Search(index, phase, keywords, |index|), x, HigherFirst)
            == RankedWith(Candidates(index, phase, keywords), x, HigherFirst)
  {
    hide Sort, RankedWith, Eligible, InPhase;
    var candidates := Candidates(index, phase, keywords);
    HigherFirstIsTotal();
    SortIsStable(candidates, x, HigherFirst);
    SortPermutes(candidates, HigherFirst);
    FewCandidates(index, phase, keywords);
    var ranked := Sort(candidates, HigherFirst);
    if |index| <= |ranked| {
      assert ranked[..|index|] == ranked;
    }
  }

  lemma {:induction false} FewCandidates(index: Index, phase: Option<string>, keywords: seq<string>)
    ensures |Candidates(index, phase, keywords)| <= |index|
  {
    if index != [] {
      FewCandidates(index[..|index| - 1], phase, keywords);
    }
  }

  /** An accepted entry always outranks an unaccepted one with at most as many keyword hits and no better quality. */
  lemma AcceptanceOutranks(a: Entry, b: Entry, keywords: seq<string>)
    requires a.fields.wasAccepted == Some(true) && b.fields.wasAccepted != Some(true)
    requires ScoreArchiveEntry(b, keywords).keywordScore <= ScoreArchiveEntry(a, keywords).keywordScore + 4
    requires Quality(b.fields) <= Quality(a.fields)
    ensures ScoreArchiveEntry(a, keywords).score > ScoreArchiveEntry(b, keywords).score
  {
    var x, y := ScoreArchiveEntry(a, keywords).keywordScore, ScoreArchiveEntry(b, keywords).keywordScore;
    assert y as real <= (x + 4) as real == x as real + 4.0;
  }

  /** More keyword hits, acceptance and a higher positive quality each raise the score, and none of them lowers it. */
  lemma RankingRewards(a: Entry, b: Entry, keywords: seq<string>)
    requires KeywordScore(SearchText(a.fields), keywords) <= KeywordScore(SearchText(b.fields), keywords)
    requires a.fields.wasAccepted == Some(true) ==> b.fields.wasAccepted == Some(true)
    requires Quality(a.fields) <= Quality(b.fields)
    ensures var x, y := ScoreArchiveEntry(a, keywords), ScoreArchiveEntry(b, keywords);
            && x.score <= y.score
            && (x.score == y.score <==>
                  && x.keywordScore == y.keywordScore
                  && (a.fields.wasAccepted == Some(true) <==> b.fields.wasAccepted == Some(true))
                  && (Quality(a.fields) == Quality(b.fields) || Quality(b.fields) <= 0.0))
  {
    var x, y := ScoreArchiveEntry(a, keywords).keywordScore, ScoreArchiveEntry(b, keywords).keywordScore;
    assert x < y ==> x as real < y as real;
  }

  lemma PerformLast(ops: seq<Op>, op: Op)
    ensures PerformAll(ops + [op]) == Perform(PerformAll(ops).0, PerformAll(ops).1, op)
  {
    assert (ops + [op])[..|ops|] == ops;
  }

  /** Both failures happen: the same id extracted again with other fields, and an interrupted first report of a quality. */
  lemma DisagreementsHappen(id: string, f: Fields, g: Fields, quality: real)
    requires f != g && f.qualityScore == None
    ensures var (index, items) := PerformAll([Extract(id, f), Extract(id, g)]); !Agrees(index, items)
    ensures var (index, items) := PerformAll([Extract(id, f)]);
            Agrees(index, items) && !Agrees(ReportInIndex(index, id, Outcome(Some(quality), None, None)), items)
  {
    PerformLast([], Extract(id, f));
    PerformLast([Extract(id, f)], Extract(id, g));
    assert [] + [Extract(id, f)] == [Extract(id, f)];
    assert [Extract(id, f)] + [Extract(id, g)] == [Extract(id, f), Extract(id, g)];
    var (index, items) := PerformAll([Extract(id, f)]);
    assert index == [Entry(id, f)] && items == map[id := f];
    ExtractKeepsAgreementExactly(index, items, id, g);
    InterruptedUpdateBreaksExactly(index, items, id, Outcome(Some(quality), None, None));
    assert index[0].id == id;
  }
}

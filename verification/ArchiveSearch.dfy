/** What a search of the archive finds, said of the fields of an entry rather than of the text they are joined into. */
module ArchiveSearch {
  import opened Basics
  import opened Sorting
  import opened Archive

  // ---- substrings ----

  predicate ContainsAt(text: string, word: string, i: nat) {
    i <= |text| && word <= text[i..]
  }

  lemma ContainsSomewhere(text: string, word: string, i: nat)
    requires ContainsAt(text, word, i)
    ensures Contains(text, word)
  {
  }

  lemma ContainedInLonger(a: string, b: string, c: string, word: string)
    requires Contains(b, word)
    ensures Contains(a + b + c, word)
  {
    var i :| 0 <= i <= |b| && word <= b[i..];
    var text := a + b + c;
    assert text[|a| + i..] == b[i..] + c;
    ContainsSomewhere(text, word, |a| + i);
  }

  /** A word without the separator does not reach across one. */
  lemma NotAcrossASeparator(a: string, b: string, word: string)
    requires ' ' !in word
    ensures Contains(a + " " + b, word) <==> Contains(a, word) || Contains(b, word)
  {
    var text := a + " " + b;
    if Contains(a, word) {
      ContainedInLonger("", a, " " + b, word);
      assert "" + a + (" " + b) == text;
    }
    if Contains(b, word) {
      ContainedInLonger(a + " ", b, "", word);
      assert a + " " + b + "" == text;
    }
    if Contains(text, word) {
      var i :| 0 <= i <= |text| && word <= text[i..];
      StaysOnOneSide(a, b, word, i);
      if i + |word| <= |a| {
        assert word <= a[i..];
      } else {
        assert text[i..] == b[i - |a| - 1..];
      }
    }
  }

  lemma StaysOnOneSide(a: string, b: string, word: string, i: nat)
    requires ' ' !in word && ContainsAt(a + " " + b, word, i)
    ensures i + |word| <= |a| || i > |a|
  {
    if i <= |a| < i + |word| {
      LetterAt(a + " " + b, word, i, |a| - i);
      assert false;
    }
  }

  lemma LetterAt(text: string, word: string, i: nat, k: nat)
    requires ContainsAt(text, word, i) && k < |word|
    ensures i + k < |text| && word[k] == text[i + k] && text[i + k] in word
  {
    assert text[i..][k] == text[i + k];
  }

  // ---- lower case and joining ----

  function LowerAll(words: seq<string>): seq<string> {
    seq(|words|, i requires 0 <= i < |words| => Lower(words[i]))
  }

  lemma LowerConcat(a: string, b: string)
    ensures Lower(a + b) == Lower(a) + Lower(b)
  {
  }

  lemma {:induction false} LowerJoins(words: seq<string>)
    ensures Lower(JoinWords(words)) == JoinWords(LowerAll(words))
  {
    if |words| > 1 {
      LowerJoins(words[1..]);
      assert LowerAll(words)[1..] == LowerAll(words[1..]);
      LowerConcat(words[0] + " ", JoinWords(words[1..]));
      LowerConcat(words[0], " ");
    }
  }

  lemma SeparatorStays(word: string)
    requires ' ' !in word
    ensures ' ' !in Lower(word)
  {
    forall c | c in Lower(word)
      ensures c != ' '
    {
      var i :| 0 <= i < |word| && LowerChar(word[i]) == c;
      assert word[i] in word;
    }
  }

  /** Whatever one of the words holds the joined text holds, and a word without the separator is found in no other way. */
  lemma {:induction false} JoinedHolds(words: seq<string>, word: string)
    requires words != []
    ensures (exists i :: 0 <= i < |words| && Contains(words[i], word)) ==> Contains(JoinWords(words), word)
    ensures ' ' !in word && Contains(JoinWords(words), word) ==> exists i :: 0 <= i < |words| && Contains(words[i], word)
  {
    hide Contains;
    if |words| > 1 {
      var rest := words[1..];
      JoinedHolds(rest, word);
      assert forall i :: 0 < i < |words| ==> words[i] == rest[i - 1];
      if i :| 0 <= i < |words| && Contains(words[i], word) {
        if i == 0 {
          ContainedInLonger("", words[0], " " + JoinWords(rest), word);
          assert "" + words[0] + (" " + JoinWords(rest)) == JoinWords(words);
        } else {
          assert Contains(rest[i - 1], word);
          ContainedInLonger(words[0] + " ", JoinWords(rest), "", word);
          assert words[0] + " " + JoinWords(rest) + "" == JoinWords(words);
        }
      }
      if ' ' !in word {
        NotAcrossASeparator(words[0], JoinWords(rest), word);
        if Contains(JoinWords(rest), word) {
          var i :| 0 <= i < |rest| && Contains(rest[i], word);
          assert Contains(words[i + 1], word);
        }
      }
    }
  }

  // ---- keyword hits, by field ----

  predicate FieldHolds(field: string, keyword: string) {
    Contains(Lower(field), Lower(keyword))
  }

  /** The keyword occurs, case aside, in the title, the summary, a tag, the phase, the domain or the deliverable type. */
  predicate Mentions(f: Fields, keyword: string) {
    || FieldHolds(f.title, keyword) || FieldHolds(f.summary, keyword)
    || (exists i :: 0 <= i < |f.tags| && FieldHolds(f.tags[i], keyword))
    || (f.phase.Some? && FieldHolds(f.phase.value, keyword))
    || (f.domain.Some? && FieldHolds(f.domain.value, keyword))
    || (f.deliverableType.Some? && FieldHolds(f.deliverableType.value, keyword))
  }

  predicate Hits(f: Fields, keyword: string) {
    Contains(SearchText(f), Lower(keyword))
  }

  function WordsOf(f: Fields): seq<string> {
    [f.title, f.summary] + f.tags + [OrElse(f.phase, ""), OrElse(f.domain, ""), OrElse(f.deliverableType, "")]
  }

  lemma EmptyHoldsNothingElse(f: Fields, keyword: string)
    requires FieldHolds("", keyword)
    ensures FieldHolds(f.title, keyword)
  {
    assert Lower(keyword) == "";
    ContainsSomewhere(Lower(f.title), "", 0);
  }

  lemma MentionedInAWord(f: Fields, keyword: string)
    ensures Mentions(f, keyword) <==> exists i :: 0 <= i < |WordsOf(f)| && FieldHolds(WordsOf(f)[i], keyword)
  {
    hide FieldHolds;
    var words, n := WordsOf(f), |f.tags|;
    assert words[0] == f.title && words[1] == f.summary;
    assert forall i :: 0 <= i < n ==> words[2 + i] == f.tags[i];
    assert words[n + 2] == OrElse(f.phase, "") && words[n + 3] == OrElse(f.domain, "") && words[n + 4] == OrElse(f.deliverableType, "");
    if FieldHolds("", keyword) {
      EmptyHoldsNothingElse(f, keyword);
    }
    if i :| 0 <= i < n && FieldHolds(f.tags[i], keyword) {
      assert FieldHolds(words[2 + i], keyword);
    }
    if i :| 0 <= i < |words| && FieldHolds(words[i], keyword) {
      assert 2 <= i < n + 2 ==> FieldHolds(f.tags[i - 2], keyword);
    }
  }

  /** A keyword that one of the fields mentions is a hit; a keyword without a space is a hit in no other case. */
  lemma HitsAreMentions(f: Fields, keyword: string)
    ensures Mentions(f, keyword) ==> Hits(f, keyword)
    ensures ' ' !in keyword ==> (Hits(f, keyword) <==> Mentions(f, keyword))
  {
    hide Contains, Mentions, JoinWords;
    var words := WordsOf(f);
    LowerJoins(words);
    assert SearchText(f) == JoinWords(LowerAll(words));
    JoinedHolds(LowerAll(words), Lower(keyword));
    MentionedInAWord(f, keyword);
    if i :| 0 <= i < |words| && FieldHolds(words[i], keyword) {
      assert Contains(LowerAll(words)[i], Lower(keyword));
    }
    if ' ' !in keyword {
      SeparatorStays(keyword);
      if Hits(f, keyword) {
        var i :| 0 <= i < |words| && Contains(LowerAll(words)[i], Lower(keyword));
        assert FieldHolds(words[i], keyword);
      }
    }
  }

  // ---- the score ----

  function HitPositions(f: Fields, keywords: seq<string>): set<int> {
    HitsFrom(f, keywords, 0)
  }

  function HitsFrom(f: Fields, keywords: seq<string>, n: nat): set<int> {
    set i | n <= i < |keywords| && Hits(f, keywords[i])
  }

  lemma {:induction false} ScoreCountsFrom(f: Fields, keywords: seq<string>, n: nat)
    requires n <= |keywords|
    ensures KeywordScore(SearchText(f), keywords[n..]) == |HitsFrom(f, keywords, n)|
    decreases |keywords| - n
  {
    hide SearchText, Contains;
    if n < |keywords| {
      ScoreCountsFrom(f, keywords, n + 1);
      assert keywords[n..][1..] == keywords[n + 1..];
      assert HitsFrom(f, keywords, n) == HitsFrom(f, keywords, n + 1) + if Hits(f, keywords[n]) then {n} else {};
    } else {
      assert HitsFrom(f, keywords, n) == {};
    }
  }

  /** The keyword score counts the keyword positions that hit. */
  lemma KeywordScoreCounts(f: Fields, keywords: seq<string>)
    ensures KeywordScore(SearchText(f), keywords) == |HitPositions(f, keywords)|
  {
    hide SearchText, HitsFrom;
    ScoreCountsFrom(f, keywords, 0);
    assert keywords[0..] == keywords;
  }

  /** An entry scores one for every keyword position its text holds, five if it was accepted, and twice its quality, or
      else its outcome score, if that is positive. */
  lemma ScoreBreaksDown(e: Entry, keywords: seq<string>)
    ensures var q := if e.fields.qualityScore.Some? then e.fields.qualityScore.value
                     else if e.fields.outcomeScore.Some? then e.fields.outcomeScore.value else 0.0;
            var hits := |HitPositions(e.fields, keywords)|;
            && ScoreArchiveEntry(e, keywords).entry == e
            && ScoreArchiveEntry(e, keywords).keywordScore == hits
            && (e.fields.wasAccepted == Some(true) && q > 0.0 ==> ScoreArchiveEntry(e, keywords).score == hits as real + 5.0 + q + q)
            && (e.fields.wasAccepted == Some(true) && q <= 0.0 ==> ScoreArchiveEntry(e, keywords).score == hits as real + 5.0)
            && (e.fields.wasAccepted != Some(true) && q > 0.0 ==> ScoreArchiveEntry(e, keywords).score == hits as real + q + q)
            && (e.fields.wasAccepted != Some(true) && q <= 0.0 ==> ScoreArchiveEntry(e, keywords).score == hits as real)
  {
    hide KeywordScore, SearchText, HitPositions;
    KeywordScoreCounts(e.fields, keywords);
  }

  // ---- what is found ----

  /** The search asks for no phase, or the entry has it as its phase or among its tags. */
  predicate OfPhase(f: Fields, phase: Option<string>) {
    phase.None? || phase.value == "" || (f.phase.Some? && f.phase.value == phase.value) || phase.value in f.tags
  }

  predicate WorthShowing(f: Fields) {
    f.wasAccepted == Some(true) || (f.qualityScore.Some? && f.qualityScore.value > 0.0)
  }

  predicate Found(results: seq<Ranked>, e: Entry) {
    exists i :: 0 <= i < |results| && results[i].entry == e
  }

  lemma FoundOnlyIfCandidate(index: Index, phase: Option<string>, keywords: seq<string>, maxResults: nat, e: Entry)
    requires Found(Search(index, phase, keywords, maxResults), e)
    ensures ScoreArchiveEntry(e, keywords) in Candidates(index, phase, keywords)
  {
    hide Candidates, Sort, ScoreArchiveEntry;
    var omitted := SearchReturnsTheBest(index, phase, keywords, maxResults);
    var results := Search(index, phase, keywords, maxResults);
    var i :| 0 <= i < |results| && results[i].entry == e;
    assert results[i] in multiset(results);
    assert results[i] in multiset(Candidates(index, phase, keywords));
    CandidatesAre(index, phase, keywords, results[i]);
    var k :| 0 <= k < |index| && results[i] == ScoreArchiveEntry(index[k], keywords);
    EntryIsKept(index[k], keywords);
  }

  lemma FoundWhenThereIsRoom(index: Index, phase: Option<string>, keywords: seq<string>, maxResults: nat, e: Entry)
    requires |Search(index, phase, keywords, maxResults)| < maxResults
    requires ScoreArchiveEntry(e, keywords) in Candidates(index, phase, keywords)
    ensures Found(Search(index, phase, keywords, maxResults), e)
  {
    hide Candidates, Sort, ScoreArchiveEntry;
    var omitted := SearchReturnsTheBest(index, phase, keywords, maxResults);
    var results, r := Search(index, phase, keywords, maxResults), ScoreArchiveEntry(e, keywords);
    assert r in multiset(Candidates(index, phase, keywords));
    assert r in results;
    EntryIsKept(e, keywords);
    var i :| 0 <= i < |results| && results[i] == r;
  }

  lemma CandidateExactly(index: Index, phase: Option<string>, keywords: seq<string>, e: Entry)
    ensures ScoreArchiveEntry(e, keywords) in Candidates(index, phase, keywords) <==>
              && e in index && OfPhase(e.fields, phase)
              && ((exists i :: 0 <= i < |keywords| && Hits(e.fields, keywords[i])) || WorthShowing(e.fields))
  {
    hide Candidates, KeywordScore, SearchText, Hits;
    var r := ScoreArchiveEntry(e, keywords);
    CandidatesAre(index, phase, keywords, r);
    KeywordScoreCounts(e.fields, keywords);
    var hits := HitPositions(e.fields, keywords);
    if i :| 0 <= i < |keywords| && Hits(e.fields, keywords[i]) {
      assert i in hits;
    }
    if hits != {} {
      var i :| i in hits;
    }
    if e in index {
      var k :| 0 <= k < |index| && index[k] == e;
      assert r == ScoreArchiveEntry(index[k], keywords);
    }
    if k :| 0 <= k < |index| && r == ScoreArchiveEntry(index[k], keywords) {
      EntryIsKept(index[k], keywords);
    }
  }

  /** While there is room, the search returns an entry of the index exactly when it is of the phase asked for and holds one
      of the keywords, was accepted, or has a positive quality. */
  lemma SearchFindsExactly(index: Index, phase: Option<string>, keywords: seq<string>, maxResults: nat, e: Entry)
    requires |Search(index, phase, keywords, maxResults)| < maxResults
    ensures Found(Search(index, phase, keywords, maxResults), e) <==>
              && e in index && OfPhase(e.fields, phase)
              && ((exists i :: 0 <= i < |keywords| && Hits(e.fields, keywords[i])) || WorthShowing(e.fields))
  {
    hide Search, Candidates, ScoreArchiveEntry, Hits;
    CandidateExactly(index, phase, keywords, e);
    if Found(Search(index, phase, keywords, maxResults), e) {
      FoundOnlyIfCandidate(index, phase, keywords, maxResults, e);
    }
    if ScoreArchiveEntry(e, keywords) in Candidates(index, phase, keywords) {
      FoundWhenThereIsRoom(index, phase, keywords, maxResults, e);
    }
  }

  /** In particular an entry of the phase one of whose fields mentions a keyword is returned whenever there is room. */
  lemma MentionedIsFound(index: Index, phase: Option<string>, keywords: seq<string>, maxResults: nat, e: Entry, k: nat)
    requires |Search(index, phase, keywords, maxResults)| < maxResults
    requires e in index && OfPhase(e.fields, phase) && k < |keywords| && Mentions(e.fields, keywords[k])
    ensures Found(Search(index, phase, keywords, maxResults), e)
  {
    hide Search, Mentions, Hits;
    HitsAreMentions(e.fields, keywords[k]);
    SearchFindsExactly(index, phase, keywords, maxResults, e);
  }

  // ---- outcome reports ----

  /** After a report every entry of the id carries what was reported and is otherwise as before; other entries are untouched. */
  lemma ReportReachesItsEntries(index: Index, id: string, o: Outcome, i: nat)
    requires i < |index|
    ensures |ReportInIndex(index, id, o)| == |index|
    ensures var before, after := index[i], ReportInIndex(index, id, o)[i];
            && (before.id != id ==> after == before)
            && (before.id == id ==>
                  && after.id == id
                  && (o.qualityScore.Some? ==> after.fields.qualityScore == o.qualityScore)
                  && (o.wasAccepted.Some? ==> after.fields.wasAccepted == o.wasAccepted)
                  && (o.outcomeStatus.Some? ==> after.fields.outcomeStatus == o.outcomeStatus)
                  && after.fields.(qualityScore := before.fields.qualityScore, wasAccepted := before.fields.wasAccepted,
                                   outcomeStatus := before.fields.outcomeStatus) == before.fields
                  && (o == Outcome(None, None, None) ==> after == before))
  {
  }

  /** The phase in an item's id keeps its letters, digits, underscores and hyphens; anything else becomes an underscore. */
  lemma SafePhaseIsSafe(phase: string, i: nat)
    requires i < |phase|
    ensures |SafePhase(Some(phase))| == |phase|
    ensures var c := phase[i];
            var word := 'a' <= c <= 'z' || 'A' <= c <= 'Z' || '0' <= c <= '9' || c in "_-";
            SafePhase(Some(phase))[i] == if word then c else '_'
  {
  }

  /** An item belongs to its procurement, or to its job's under a name of its own, or is refused; its source, when none is
      given, is told by the procurement's name. */
  lemma OwnersAre(procurementId: string, jobId: string, source: string)
    ensures EffectiveProcurement(Some(procurementId), Some(jobId)) == procurementId == EffectiveProcurement(Some(procurementId), None)
    ensures jobId != "" ==> EffectiveProcurement(None, Some(jobId)) == "job_" + jobId
    ensures EffectiveProcurement(None, None) == "" && EffectiveProcurement(None, Some("")) == ""
    ensures EffectiveSource(Some(source), Some(procurementId)) == source
    ensures EffectiveSource(None, Some("job_" + jobId)) == "v1" && EffectiveSource(None, None) == "prime"
    ensures !("job_" <= procurementId) ==> EffectiveSource(None, Some(procurementId)) == "prime"
  {
  }

  lemma ItemIdIs()
    ensures ItemId("prime", "12", "trial", 7) == "prime_12_trial_7"
  {
  }
}

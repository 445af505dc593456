/** Disputes between validators: detection from their scores, and the record kept of each. */
module Disputes {
  import opened Basics

  // ---- detection ----

  datatype ScoreRecord = ScoreRecord(validator: string, score: Option<real>)

  datatype Scored = Scored(validator: string, score: real)

  datatype Severity = High | Critical

  datatype Dispute = Dispute(validatorA: string, validatorB: string, scoreA: real, scoreB: real, delta: real, severity: Severity)

  function Abs(x: real): real {
    if x < 0.0 then -x else x
  }

  /** The records that carry a score. */
  function ValidScores(records: seq<ScoreRecord>): seq<Scored> {
    if records == [] then []
    else
      var last := records[|records| - 1];
      ValidScores(records[..|records| - 1]) + if last.score.Some? then [Scored(last.validator, last.score.value)] else []
  }

  function DisputeOf(a: Scored, b: Scored, threshold: real): Dispute {
    var delta := Abs(a.score - b.score);
    Dispute(a.validator, b.validator, a.score, b.score, delta, if delta > threshold * 2.0 then Critical else High)
  }

  predicate Apart(s: seq<Scored>, i: nat, j: nat, threshold: real)
    requires i < |s| && j < |s|
  {
    Abs(s[i].score - s[j].score) > threshold
  }

  type Pair = (nat, nat)

  /** The pairs more than the threshold apart, row by row, before row `i` and in row `i` before column `j`. */
  function PairsBefore(s: seq<Scored>, i: nat, j: nat, threshold: real): seq<Pair>
    requires i < j && (if i < |s| then j <= |s| else i == |s| && j == i + 1)
    decreases i, j
  {
    if j > i + 1 then PairsBefore(s, i, j - 1, threshold) + (if Apart(s, i, j - 1, threshold) then [(i, j - 1)] else [])
    else if i == 0 then []
    else PairsBefore(s, i - 1, |s|, threshold)
  }

  function Pairs(s: seq<Scored>, threshold: real): seq<Pair> {
    PairsBefore(s, |s|, |s| + 1, threshold)
  }

  ghost predicate InRange(s: seq<Scored>, pairs: seq<Pair>) {
    forall k :: 0 <= k < |pairs| ==> pairs[k].0 < |s| && pairs[k].1 < |s|
  }

  function DisputesOf(s: seq<Scored>, pairs: seq<Pair>, threshold: real): seq<Dispute>
    requires InRange(s, pairs)
  {
    seq(|pairs|, k requires 0 <= k < |pairs| => DisputeOf(s[pairs[k].0], s[pairs[k].1], threshold))
  }

  ghost predicate Distinct(pairs: seq<Pair>) {
    forall k, l :: 0 <= k < l < |pairs| ==> pairs[k] != pairs[l]
  }

  lemma {:induction false} PairsBeforeAre(s: seq<Scored>, i: nat, j: nat, threshold: real)
    requires i < j && (if i < |s| then j <= |s| else i == |s| && j == i + 1)
    ensures var ps := PairsBefore(s, i, j, threshold);
            && InRange(s, ps) && Distinct(ps)
            && forall p :: p in ps <==> p.0 < p.1 < |s| && Apart(s, p.0, p.1, threshold) && (p.0 < i || (p.0 == i && p.1 < j))
    decreases i, j
  {
    hide Apart;
    if j > i + 1 {
      PairsBeforeAre(s, i, j - 1, threshold);
      AppendIsDistinct(PairsBefore(s, i, j - 1, threshold), (i, j - 1));
    } else if i > 0 {
      PairsBeforeAre(s, i - 1, |s|, threshold);
    }
  }

  lemma AppendIsDistinct(pairs: seq<Pair>, p: Pair)
    requires Distinct(pairs)
    ensures p !in pairs ==> Distinct(pairs + [p])
  {
  }

  /** Detection lists each unordered pair above the threshold once and no other pair. */
  lemma EachPairOnce(s: seq<Scored>, threshold: real)
    ensures InRange(s, Pairs(s, threshold)) && Distinct(Pairs(s, threshold))
    ensures forall p :: p in Pairs(s, threshold) <==> p.0 < p.1 < |s| && Apart(s, p.0, p.1, threshold)
  {
    PairsBeforeAre(s, |s|, |s| + 1, threshold);
  }

  lemma DisputesOfAppend(s: seq<Scored>, pairs: seq<Pair>, p: Pair, threshold: real)
    requires InRange(s, pairs) && p.0 < |s| && p.1 < |s|
    ensures InRange(s, pairs + [p])
    ensures DisputesOf(s, pairs + [p], threshold) == DisputesOf(s, pairs, threshold) + [DisputeOf(s[p.0], s[p.1], threshold)]
  {
  }

  lemma NextColumn(s: seq<Scored>, i: nat, j: nat, threshold: real)
    requires i < j < |s| && InRange(s, PairsBefore(s, i, j, threshold))
    ensures InRange(s, PairsBefore(s, i, j + 1, threshold))
    ensures DisputesOf(s, PairsBefore(s, i, j + 1, threshold), threshold)
            == DisputesOf(s, PairsBefore(s, i, j, threshold), threshold)
               + (if Apart(s, i, j, threshold) then [DisputeOf(s[i], s[j], threshold)] else [])
  {
    hide DisputesOf, Apart;
    if Apart(s, i, j, threshold) {
      DisputesOfAppend(s, PairsBefore(s, i, j, threshold), (i, j), threshold);
    } else {
      assert PairsBefore(s, i, j + 1, threshold) == PairsBefore(s, i, j, threshold);
    }
  }

  lemma NextRow(s: seq<Scored>, i: nat, threshold: real)
    requires i < |s|
    ensures PairsBefore(s, i + 1, i + 2, threshold) == PairsBefore(s, i, |s|, threshold)
  {
  }

  /** `valid` are the records with a score, in order; `at` lists their places. */
  ghost predicate Places(records: seq<ScoreRecord>, valid: seq<Scored>, at: seq<nat>) {
    && |at| == |valid|
    && (forall k, l :: 0 <= k < l < |at| ==> at[k] < at[l])
    && (forall k :: 0 <= k < |at| ==> at[k] < |records| && records[at[k]] == ScoreRecord(valid[k].validator, Some(valid[k].score)))
    && (forall i :: 0 <= i < |records| && records[i].score.Some? ==> i in at)
  }

  lemma PlacesExtend(front: seq<ScoreRecord>, valid: seq<Scored>, at: seq<nat>, last: ScoreRecord)
    requires Places(front, valid, at)
    ensures last.score.None? ==> Places(front + [last], valid, at)
    ensures last.score.Some? ==> Places(front + [last], valid + [Scored(last.validator, last.score.value)], at + [|front|])
  {
    var all := front + [last];
    assert all[|front|] == last && forall i :: 0 <= i < |front| ==> all[i] == front[i];
    if last.score.Some? {
      var at' := at + [|front|];
      assert at'[|at|] == |front|;
      assert forall i :: i in at ==> i in at';
    }
  }

  lemma {:induction false} ValidScoresAre(records: seq<ScoreRecord>) returns (at: seq<nat>)
    ensures Places(records, ValidScores(records), at)
  {
    hide Places;
    if records == [] {
      at := [];
      NoPlaces();
    } else {
      var front, last := records[..|records| - 1], records[|records| - 1];
      at := ValidScoresAre(front);
      PlacesExtend(front, ValidScores(front), at, last);
      assert front + [last] == records;
      if last.score.Some? {
        at := at + [|front|];
      } else {
        assert ValidScores(records) == ValidScores(front);
      }
    }
  }

  lemma NoPlaces()
    ensures Places([], [], [])
  {
  }

  /** A dispute names both validators and their scores, how far these are apart, and whether that is more than twice the
      threshold. */
  predicate Describes(d: Dispute, a: Scored, b: Scored, threshold: real) {
    && d.validatorA == a.validator && d.validatorB == b.validator && d.scoreA == a.score && d.scoreB == b.score
    && (a.score >= b.score ==> d.delta == a.score - b.score) && (a.score <= b.score ==> d.delta == b.score - a.score)
    && d.delta > threshold
    && (d.severity == Critical <==> d.delta > threshold + threshold)
  }

  /** Exactly the pairs of scores more than the threshold apart are described. */
  lemma DisputesDescribePairs(s: seq<Scored>, threshold: real)
    ensures InRange(s, Pairs(s, threshold))
    ensures var disputes := DisputesOf(s, Pairs(s, threshold), threshold);
            forall d :: d in disputes <==> exists i, j :: 0 <= i < j < |s| && Describes(d, s[i], s[j], threshold)
  {
    EachPairOnce(s, threshold);
    var ps := Pairs(s, threshold);
    var disputes := DisputesOf(s, ps, threshold);
    hide Pairs;
    forall d | d in disputes
      ensures exists i, j :: 0 <= i < j < |s| && Describes(d, s[i], s[j], threshold)
    {
      var k :| 0 <= k < |disputes| && disputes[k] == d;
      assert ps[k] in ps;
      assert Describes(d, s[ps[k].0], s[ps[k].1], threshold);
    }
    forall d, i, j | 0 <= i < j < |s| && Describes(d, s[i], s[j], threshold)
      ensures d in disputes
    {
      assert Apart(s, i, j, threshold);
      assert (i, j) in ps;
      var k :| 0 <= k < |ps| && ps[k] == (i, j);
      assert disputes[k] == d;
    }
  }

  method FilterScores(records: seq<ScoreRecord>) returns (valid: seq<Scored>)
    ensures valid == ValidScores(records)
  {
    valid := [];
    for k := 0 to |records|
      invariant valid == ValidScores(records[..k])
    {
      assert records[..k + 1][..k] == records[..k];
      if records[k].score.Some? {
        valid := valid + [Scored(records[k].validator, records[k].score.value)];
      }
    }
    assert records[..|records|] == records;
  }

  /** detectDisputes: the disputes are those of the pairs above the threshold, row by row. */
  method DetectDisputes(records: seq<ScoreRecord>, threshold: real) returns (disputes: seq<Dispute>, detected: bool)
    ensures detected == (disputes != [])
    ensures |records| < 2 ==> disputes == []
    ensures |records| >= 2 ==>
              var valid := ValidScores(records);
              && InRange(valid, Pairs(valid, threshold)) && disputes == DisputesOf(valid, Pairs(valid, threshold), threshold)
              && forall d :: d in disputes <==> exists i, j :: 0 <= i < j < |valid| && Describes(d, valid[i], valid[j], threshold)
  {
    hide DisputesOf, PairsBefore, Describes;
    DisputesDescribePairs(ValidScores(records), threshold);
    disputes := [];
    if |records| < 2 {
      return disputes, false;
    }
    var valid := FilterScores(records);
    var i := 0;
    NoDisputes(valid, threshold);
    while i < |valid|
      invariant i <= |valid|
      invariant InRange(valid, PairsBefore(valid, i, i + 1, threshold))
      invariant disputes == DisputesOf(valid, PairsBefore(valid, i, i + 1, threshold), threshold)
    {
      var j := i + 1;
      while j < |valid|
        invariant i < j <= |valid|
        invariant InRange(valid, PairsBefore(valid, i, j, threshold))
        invariant disputes == DisputesOf(valid, PairsBefore(valid, i, j, threshold), threshold)
      {
        var diff := Abs(valid[i].score - valid[j].score);
        NextColumn(valid, i, j, threshold);
        if diff > threshold {
          disputes := disputes + [Dispute(valid[i].validator, valid[j].validator, valid[i].score, valid[j].score, diff,
                                          if diff > threshold * 2.0 then Critical else High)];
        }
        j := j + 1;
      }
      NextRow(valid, i, threshold);
      i := i + 1;
    }
    detected := |disputes| > 0;
  }

  lemma NoDisputes(s: seq<Scored>, threshold: real)
    ensures InRange(s, PairsBefore(s, 0, 1, threshold)) && DisputesOf(s, PairsBefore(s, 0, 1, threshold), threshold) == []
  {
  }

  // ---- what detection means ----

  ghost predicate IsMax(s: seq<Scored>, k: nat) {
    k < |s| && forall i :: 0 <= i < |s| ==> s[i].score <= s[k].score
  }

  ghost predicate IsMin(s: seq<Scored>, k: nat) {
    k < |s| && forall i :: 0 <= i < |s| ==> s[k].score <= s[i].score
  }

  /** Among two or more scores a dispute is detected exactly when the largest and the smallest are more than the
      threshold apart. */
  lemma DetectionIsARangeTest(s: seq<Scored>, hi: nat, lo: nat, threshold: real)
    requires |s| >= 2 && IsMax(s, hi) && IsMin(s, lo)
    ensures Pairs(s, threshold) != [] <==> s[hi].score - s[lo].score > threshold
  {
    var ps := Pairs(s, threshold);
    EachPairOnce(s, threshold);
    if ps != [] {
      assert ps[0] in ps;
    }
    if s[hi].score - s[lo].score > threshold {
      var p: Pair := if hi < lo then (hi, lo) else if lo < hi then (lo, hi) else (0, 1);
      assert Apart(s, p.0, p.1, threshold);
      assert p in ps;
    }
  }

  /** The pair that vouches for score `k` when scores `i` and `j` are critically apart: `k` is apart from one of them. */
  function Witness(s: seq<Scored>, i: nat, j: nat, k: nat, threshold: real): Pair
    requires i < |s| && j < |s| && k < |s|
  {
    if k == j || Apart(s, i, k, threshold) then Ordered(i, k) else Ordered(k, j)
  }

  function Ordered(a: nat, b: nat): Pair {
    if a < b then (a, b) else (b, a)
  }

  lemma WitnessIsDisputed(s: seq<Scored>, i: nat, j: nat, k: nat, threshold: real)
    requires i < |s| && j < |s| && k < |s| && i != j && k != i
    requires Abs(s[i].score - s[j].score) > threshold * 2.0
    ensures Witness(s, i, j, k, threshold) in Pairs(s, threshold)
  {
    EachPairOnce(s, threshold);
  }

  lemma {:induction false} DistinctWitnesses(s: seq<Scored>, i: nat, j: nat, n: nat, threshold: real) returns (w: set<Pair>)
    requires i < |s| && j < |s| && i != j && n <= |s|
    requires Abs(s[i].score - s[j].score) > threshold * 2.0
    ensures |w| == if i < n then n - 1 else n
    ensures forall p :: p in w ==> p in Pairs(s, threshold)
    ensures forall p :: p in w ==> exists k :: 0 <= k < n && k != i && p == Witness(s, i, j, k, threshold)
  {
    hide Pairs, Apart;
    if n == 0 {
      w := {};
    } else {
      var w0 := DistinctWitnesses(s, i, j, n - 1, threshold);
      if n - 1 == i {
        w := w0;
      } else {
        var p := Witness(s, i, j, n - 1, threshold);
        WitnessIsDisputed(s, i, j, n - 1, threshold);
        forall k | 0 <= k < n - 1 && k != i
          ensures Witness(s, i, j, k, threshold) != p
        {
        }
        w := w0 + {p};
      }
    }
  }

  lemma {:induction false} SeqHoldsItsSet(ps: seq<Pair>, w: set<Pair>)
    requires forall p :: p in w ==> p in ps
    ensures |w| <= |ps|
  {
    if ps == [] {
      assert w == {};
    } else {
      var rest := w - {ps[0]};
      assert ps == [ps[0]] + ps[1..];
      SeqHoldsItsSet(ps[1..], rest);
      assert w <= rest + {ps[0]};
      assert |w| <= |rest + {ps[0]}| <= |rest| + 1 by { SubsetIsSmaller(w, rest + {ps[0]}); }
    }
  }

  lemma {:induction false} SubsetIsSmaller(a: set<Pair>, b: set<Pair>)
    requires a <= b
    ensures |a| <= |b|
  {
    assert b == a + (b - a);
  }

  /** A single critical dispute among n scores drags at least n - 1 disputes with it. */
  lemma CriticalIsNeverAlone(s: seq<Scored>, k: nat, threshold: real)
    requires InRange(s, Pairs(s, threshold)) && k < |Pairs(s, threshold)|
    requires DisputesOf(s, Pairs(s, threshold), threshold)[k].severity == Critical
    ensures |Pairs(s, threshold)| >= |s| - 1
  {
    var ps := Pairs(s, threshold);
    EachPairOnce(s, threshold);
    assert ps[k] in ps;
    var w := DistinctWitnesses(s, ps[k].0, ps[k].1, |s|, threshold);
    SeqHoldsItsSet(ps, w);
  }

  // ---- the dispute record ----

  datatype Status = Proposed | EvidenceCollecting | UnderReview | Resolved | Rejected | Expired

  datatype TimelineEvent = ProposedEvent | CollectingEvent(evidence: string) | ResolvedEvent(decision: string)

  datatype Evidence = Evidence(first: string, additional: seq<string>)

  datatype Record = Record(status: Status, evidence: Option<Evidence>, timeline: seq<TimelineEvent>, resolution: Option<string>)

  datatype DisputeError = NotFound | InTerminalStatus(status: Status)

  predicate Terminal(s: Status) {
    s in {Resolved, Rejected, Expired}
  }

  function Opened(evidence: Option<string>): Record {
    Record(Proposed, match evidence case None => None case Some(e) => Some(Evidence(e, [])), [ProposedEvent], None)
  }

  function Collected(file: Option<Record>, e: string): Result<Record, DisputeError> {
    match file
    case None => Err(NotFound)
    case Some(r) =>
      if Terminal(r.status) then Err(InTerminalStatus(r.status))
      else
        var evidence := match r.evidence
          case None => Evidence(e, [])
          case Some(kept) => kept.(additional := kept.additional + [e]);
        Ok(Record(EvidenceCollecting, Some(evidence), r.timeline + [CollectingEvent(e)], r.resolution))
  }

  /** Evidence is refused exactly without a record and in the three terminal statuses; otherwise it joins the record, which
      is then collecting evidence. */
  lemma CollectionExactly(file: Option<Record>, e: string)
    ensures Collected(file, e).Ok? <==> file.Some? && file.value.status in {Proposed, EvidenceCollecting, UnderReview}
    ensures Collected(file, e).Ok? ==>
              var r := Collected(file, e).value;
              && r.status == EvidenceCollecting && r.resolution == file.value.resolution
              && r.timeline == file.value.timeline + [CollectingEvent(e)]
              && (file.value.evidence.None? ==> r.evidence == Some(Evidence(e, [])))
              && (file.value.evidence.Some? ==>
                    r.evidence == Some(Evidence(file.value.evidence.value.first, file.value.evidence.value.additional + [e])))
  {
    if file.Some? {
      var status := file.value.status;
      assert status == Proposed || status == EvidenceCollecting || status == UnderReview
             || status == Resolved || status == Rejected || status == Expired;
    }
  }

  /** Resolving does not look at the status: a resolved dispute can be resolved again. */
  function ResolvedBy(file: Option<Record>, decision: string): Result<Record, DisputeError> {
    match file
    case None => Err(NotFound)
    case Some(r) => Ok(Record(Resolved, r.evidence, r.timeline + [ResolvedEvent(decision)], Some(decision)))
  }

  class DisputeFile {
    var file: Option<Record>

    constructor (file: Option<Record>)
      ensures this.file == file
    {
      this.file := file;
    }

    method OpenDispute(evidence: Option<string>)
      modifies this
      ensures file == Some(Opened(evidence))
    {
      var stored: Option<Evidence> := None;
      if evidence.Some? {
        stored := Some(Evidence(evidence.value, []));
      }
      file := Some(Record(Proposed, stored, [ProposedEvent], None));
    }

    method CollectDisputeEvidence(evidence: string) returns (r: Result<Record, DisputeError>)
      modifies this
      ensures r == Collected(old(file), evidence)
      ensures file == if r.Ok? then Some(r.value) else old(file)
    {
      if file.None? {
        return Err(NotFound);
      }
      var dispute := file.value;
      if Terminal(dispute.status) {
        return Err(InTerminalStatus(dispute.status));
      }
      if dispute.evidence.Some? {
        var kept := dispute.evidence.value;
        dispute := dispute.(evidence := Some(Evidence(kept.first, kept.additional + [evidence])));
      } else {
        dispute := dispute.(evidence := Some(Evidence(evidence, [])));
      }
      dispute := dispute.(status := EvidenceCollecting);
      dispute := dispute.(timeline := dispute.timeline + [CollectingEvent(evidence)]);
      file := Some(dispute);
      r := Ok(dispute);
    }

    method ResolveDispute(decision: string) returns (r: Result<Record, DisputeError>)
      modifies this
      ensures r == ResolvedBy(old(file), decision)
      ensures file == if r.Ok? then Some(r.value) else old(file)
    {
      if file.None? {
        return Err(NotFound);
      }
      var dispute := file.value;
      dispute := dispute.(status := Resolved, resolution := Some(decision));
      dispute := dispute.(timeline := dispute.timeline + [ResolvedEvent(decision)]);
      file := Some(dispute);
      r := Ok(dispute);
    }
  }

  // ---- every run of one record ----

  datatype Op = Collect(evidence: string) | Resolve(decision: string)

  /** The record after opening it and then attempting the operations; a refused one changes nothing. */
  function RecordAfter(initial: Option<string>, ops: seq<Op>): Record {
    if ops == [] then Opened(initial)
    else
      var before := RecordAfter(initial, ops[..|ops| - 1]);
      var r := match ops[|ops| - 1]
        case Collect(e) => Collected(Some(before), e)
        case Resolve(decision) => ResolvedBy(Some(before), decision);
      if r.Ok? then r.value else before
  }

  /** PROPOSED, then `collecting` times EVIDENCE_COLLECTING, then only RESOLVED. */
  ghost predicate Shaped(timeline: seq<TimelineEvent>, collecting: nat) {
    && 1 + collecting <= |timeline|
    && timeline[0] == ProposedEvent
    && (forall k :: 1 <= k <= collecting ==> timeline[k].CollectingEvent?)
    && (forall k :: collecting < k < |timeline| ==> timeline[k].ResolvedEvent?)
  }

  function StatusOf(e: TimelineEvent): Status {
    match e
    case ProposedEvent => Proposed
    case CollectingEvent(_) => EvidenceCollecting
    case ResolvedEvent(_) => Resolved
  }

  /** All evidence on record, oldest first. */
  function EvidenceList(r: Record): seq<string> {
    match r.evidence
    case None => []
    case Some(e) => [e.first] + e.additional
  }

  function Submitted(timeline: seq<TimelineEvent>): seq<string> {
    if timeline == [] then []
    else Submitted(timeline[..|timeline| - 1])
         + (match timeline[|timeline| - 1] case CollectingEvent(e) => [e] case _ => [])
  }

  lemma {:induction false} SubmittedCounts(timeline: seq<TimelineEvent>, collecting: nat)
    requires Shaped(timeline, collecting)
    ensures |Submitted(timeline)| == collecting
  {
    var front := timeline[..|timeline| - 1];
    if |timeline| > 1 {
      SubmittedCounts(front, if timeline[|timeline| - 1].CollectingEvent? then collecting - 1 else collecting);
    } else {
      assert Submitted(front) == [];
    }
  }

  lemma SubmittedAppend(timeline: seq<TimelineEvent>, e: TimelineEvent)
    ensures Submitted(timeline + [e]) == Submitted(timeline) + (match e case CollectingEvent(text) => [text] case _ => [])
  {
    assert (timeline + [e])[..|timeline|] == timeline;
  }

  /** What a record and its timeline agree on. */
  ghost predicate Consistent(r: Record, initial: Option<string>, collecting: nat) {
    && Shaped(r.timeline, collecting)
    && r.status == StatusOf(r.timeline[|r.timeline| - 1])
    && (r.resolution.Some? <==> 1 + collecting < |r.timeline|)
    && (r.resolution.Some? ==> r.timeline[|r.timeline| - 1] == ResolvedEvent(r.resolution.value))
    && EvidenceList(r) == (if initial.Some? then [initial.value] else []) + Submitted(r.timeline)
  }

  lemma OpeningIsConsistent(initial: Option<string>)
    ensures Consistent(Opened(initial), initial, 0)
  {
    SubmittedAppend([], ProposedEvent);
    assert [] + [ProposedEvent] == [ProposedEvent];
  }

  lemma CollectingKeepsConsistent(r: Record, initial: Option<string>, collecting: nat, e: string)
    requires Consistent(r, initial, collecting) && Collected(Some(r), e).Ok?
    ensures Consistent(Collected(Some(r), e).value, initial, collecting + 1)
  {
    hide Submitted;
    var r' := Collected(Some(r), e).value;
    SubmittedAppend(r.timeline, CollectingEvent(e));
    assert EvidenceList(r') == EvidenceList(r) + [e];
  }

  lemma ResolvingKeepsConsistent(r: Record, initial: Option<string>, collecting: nat, decision: string)
    requires Consistent(r, initial, collecting)
    ensures Consistent(ResolvedBy(Some(r), decision).value, initial, collecting)
  {
    hide Submitted;
    SubmittedAppend(r.timeline, ResolvedEvent(decision));
  }

  /** In every run the timeline is PROPOSED EVIDENCE_COLLECTING* RESOLVED*, the status is that of its last event, the
      resolution is that of the last RESOLVED event, and the evidence on record is the initial one followed by what the
      collecting events submitted, in order. */
  lemma {:induction false} RecordFollowsItsTimeline(initial: Option<string>, ops: seq<Op>) returns (collecting: nat)
    ensures Consistent(RecordAfter(initial, ops), initial, collecting)
  {
    hide Consistent, Collected;
    if ops == [] {
      OpeningIsConsistent(initial);
      collecting := 0;
    } else {
      var before := RecordAfter(initial, ops[..|ops| - 1]);
      collecting := RecordFollowsItsTimeline(initial, ops[..|ops| - 1]);
      match ops[|ops| - 1]
      case Collect(e) =>
        if Collected(Some(before), e).Ok? {
          CollectingKeepsConsistent(before, initial, collecting, e);
          collecting := collecting + 1;
        }
      case Resolve(decision) =>
        ResolvingKeepsConsistent(before, initial, collecting, decision);
    }
  }

  /** evidenceCount of the review packet. */
  function EvidenceCount(r: Record): nat {
    match r.evidence
    case None => 0
    case Some(e) => 1 + |e.additional|
  }

  /** The evidence count of the review packet is the initial evidence plus the collecting events of the timeline. */
  lemma EvidenceCountIsExact(initial: Option<string>, ops: seq<Op>) returns (collecting: nat)
    ensures Shaped(RecordAfter(initial, ops).timeline, collecting)
    ensures EvidenceCount(RecordAfter(initial, ops)) == (if initial.Some? then 1 else 0) + collecting
  {
    hide RecordAfter, Submitted;
    collecting := RecordFollowsItsTimeline(initial, ops);
    SubmittedCounts(RecordAfter(initial, ops).timeline, collecting);
    assert EvidenceCount(RecordAfter(initial, ops)) == |EvidenceList(RecordAfter(initial, ops))|;
  }

  /** In every run, one more operation changes the recorded resolution exactly when it resolves with another decision,
      whether or not the dispute was resolved before. */
  lemma ResolutionChangesExactly(initial: Option<string>, ops: seq<Op>, op: Op)
    ensures RecordAfter(initial, ops + [op]).resolution != RecordAfter(initial, ops).resolution <==>
            op.Resolve? && RecordAfter(initial, ops).resolution != Some(op.decision)
  {
    assert (ops + [op])[..|ops|] == ops;
  }

  /** A resolved dispute can be resolved again, to another decision, while further evidence is refused. */
  lemma ResolvedCanBeResolvedAgain(initial: Option<string>, first: string, second: string, e: string)
    requires first != second
    ensures var r := RecordAfter(initial, [Resolve(first)]);
            && r.status == Resolved && r.resolution == Some(first)
            && Collected(Some(r), e) == Err(InTerminalStatus(Resolved))
            && RecordAfter(initial, [Resolve(first), Resolve(second)]).resolution == Some(second)
  {
    assert [Resolve(first)][..0] == [];
    assert [Resolve(first), Resolve(second)][..1] == [Resolve(first)];
  }
}

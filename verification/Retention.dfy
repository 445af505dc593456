/** Pruning of finished job state files by age and by number. */
module Retention {
  import opened Basics
  import opened Sorting

  /** `timestamp` is the update (or creation) time in milliseconds, 0 when it does not parse. */
  datatype Job = Job(id: string, status: string, timestamp: int)

  datatype RemovalReason = TtlExpired | MaxFilesOverflow

  datatype Archived = Archived(job: Job, reason: RemovalReason)

  predicate RetentionTerminal(job: Job) {
    Lower(job.status) in {"failed", "submitted", "completed", "cancelled", "canceled", "closed", "expired", "disputed"}
  }

  function TerminalJobs(jobs: seq<Job>): seq<Job> {
    if jobs == [] then []
    else TerminalJobs(jobs[..|jobs| - 1]) + if RetentionTerminal(jobs[|jobs| - 1]) then [jobs[|jobs| - 1]] else []
  }

  /** Old enough to go; a job without a usable timestamp never is. */
  predicate PastTtl(job: Job, now: int, ttl: nat) {
    ttl > 0 && job.timestamp != 0 && now - job.timestamp > ttl
  }

  function ExpiredIds(terminal: seq<Job>, now: int, ttl: nat): set<string> {
    set job | job in terminal && PastTtl(job, now, ttl) :: job.id
  }

  predicate Older(a: Job, b: Job) {
    a.timestamp <= b.timestamp
  }

  /** Takes jobs from the front until `target` ids are chosen. */
  function TakeUntil(ordered: seq<Job>, chosen: set<string>, target: int): set<string> {
    if ordered == [] || |chosen| >= target then chosen
    else TakeUntil(ordered[1..], chosen + {ordered[0].id}, target)
  }

  function ToRemove(jobs: seq<Job>, now: int, ttl: nat, maxFiles: nat): set<string> {
    var terminal := TerminalJobs(jobs);
    var expired := ExpiredIds(terminal, now, ttl);
    if maxFiles > 0 && |jobs| - |expired| > maxFiles
    then TakeUntil(Sort(terminal, Older), expired, |jobs| - maxFiles)
    else expired
  }

  function ReasonFor(job: Job, now: int, ttl: nat): RemovalReason {
    if ttl > 0 && now - job.timestamp > ttl then TtlExpired else MaxFilesOverflow
  }

  /** The jobs whose files are still there. */
  function Kept(jobs: seq<Job>, removed: set<string>): seq<Job> {
    if jobs == [] then []
    else (if jobs[0].id in removed then [] else [jobs[0]]) + Kept(jobs[1..], removed)
  }

  function Find(jobs: seq<Job>, id: string): Option<Job> {
    if jobs == [] then None
    else if jobs[0].id == id then Some(jobs[0])
    else Find(jobs[1..], id)
  }

  lemma {:induction false} KeptTwice(jobs: seq<Job>, a: set<string>, b: set<string>)
    ensures Kept(Kept(jobs, a), b) == Kept(jobs, a + b)
  {
    if jobs != [] {
      KeptTwice(jobs[1..], a, b);
      if jobs[0].id !in a {
        assert ([jobs[0]] + Kept(jobs[1..], a))[1..] == Kept(jobs[1..], a);
      } else {
        assert [] + Kept(jobs[1..], a) == Kept(jobs[1..], a);
      }
    }
  }

  lemma {:induction false} KeptAll(jobs: seq<Job>)
    ensures Kept(jobs, {}) == jobs
  {
    if jobs != [] {
      KeptAll(jobs[1..]);
    }
  }

  /** The archive entries written for the removed ids. */
  ghost predicate ArchivesExactly(archive: map<string, Archived>, before: map<string, Archived>, jobs: seq<Job>,
                                  removed: set<string>, now: int, ttl: nat)
  {
    forall id ::
      if id in removed && Find(jobs, id).Some?
      then id in archive && archive[id] == Archived(Find(jobs, id).value, ReasonFor(Find(jobs, id).value, now, ttl))
      else (id in archive <==> id in before) && (id in archive ==> archive[id] == before[id])
  }

  class StateStore {
    var jobs: seq<Job>
    var archive: map<string, Archived>

    constructor (jobs: seq<Job>)
      ensures this.jobs == jobs && archive == map[]
    {
      this.jobs := jobs;
      archive := map[];
    }

    method PruneStateFiles(now: int, ttl: nat, maxFiles: nat) returns (removed: nat)
      modifies this
      ensures var gone := ToRemove(old(jobs), now, ttl, maxFiles);
              && jobs == Kept(old(jobs), gone) && removed == |gone|
              && ArchivesExactly(archive, old(archive), old(jobs), gone, now, ttl)
    {
      hide ToRemove, Find, Kept;
      if |jobs| == 0 {
        NothingToPrune(now, ttl, maxFiles);
        return 0;
      }
      var toRemove := ChooseRemovals(jobs, now, ttl, maxFiles);
      removed := RemoveFiles(jobs, toRemove, now, ttl);
    }

    /** Archives and deletes the chosen files, one id after the other. */
    method RemoveFiles(listed: seq<Job>, toRemove: set<string>, now: int, ttl: nat) returns (removed: nat)
      requires jobs == listed
      modifies this
      ensures jobs == Kept(old(jobs), toRemove) && removed == |toRemove|
      ensures ArchivesExactly(archive, old(archive), old(jobs), toRemove, now, ttl)
    {
      hide Find, Kept, ReasonFor, ArchivesExactly;
      removed := 0;
      var left := toRemove;
      KeptAll(jobs);
      NothingArchived(archive, listed, now, ttl);
      assert toRemove - left == {};
      while left != {}
        invariant left <= toRemove
        invariant jobs == Kept(listed, toRemove - left)
        invariant removed == |toRemove - left|
        invariant ArchivesExactly(archive, old(archive), listed, toRemove - left, now, ttl)
        decreases |left|
      {
        var jobId :| jobId in left;
        var job := Find(listed, jobId);
        ArchiveOne(archive, old(archive), listed, toRemove - left, jobId, now, ttl);
        if job.Some? {
          archive := archive[jobId := Archived(job.value, ReasonFor(job.value, now, ttl))];
        }
        KeptTwice(listed, toRemove - left, {jobId});
        jobs := Kept(jobs, {jobId});
        assert toRemove - (left - {jobId}) == (toRemove - left) + {jobId};
        left := left - {jobId};
        removed := removed + 1;
      }
      assert toRemove - left == toRemove;
    }
  }

  lemma NothingArchived(archive: map<string, Archived>, jobs: seq<Job>, now: int, ttl: nat)
    ensures ArchivesExactly(archive, archive, jobs, {}, now, ttl)
  {
  }

  lemma ArchiveOne(archive: map<string, Archived>, before: map<string, Archived>, jobs: seq<Job>,
                   done: set<string>, id: string, now: int, ttl: nat)
    requires ArchivesExactly(archive, before, jobs, done, now, ttl) && id !in done
    ensures Find(jobs, id).None? ==> ArchivesExactly(archive, before, jobs, done + {id}, now, ttl)
    ensures Find(jobs, id).Some? ==>
              ArchivesExactly(archive[id := Archived(Find(jobs, id).value, ReasonFor(Find(jobs, id).value, now, ttl))],
                              before, jobs, done + {id}, now, ttl)
  {
    hide Find, ReasonFor;
  }

  /** Phase one: everything past its time to live. */
  method ChooseExpired(terminalJobs: seq<Job>, now: int, ttl: nat) returns (toRemove: set<string>)
    ensures toRemove == ExpiredIds(terminalJobs, now, ttl)
  {
    hide ExpiredIds;
    toRemove := {};
    NothingExpires(terminalJobs, now, ttl);
    if ttl > 0 {
      for k := 0 to |terminalJobs|
        invariant toRemove == ExpiredIds(terminalJobs[..k], now, ttl)
      {
        var job := terminalJobs[k];
        ExpiredIdsAppend(terminalJobs[..k], job, now, ttl);
        assert terminalJobs[..k] + [job] == terminalJobs[..k + 1];
        if job.timestamp != 0 && now - job.timestamp > ttl {
          toRemove := toRemove + {job.id};
        }
      }
      assert terminalJobs[..|terminalJobs|] == terminalJobs;
    }
  }

  lemma NothingExpires(terminal: seq<Job>, now: int, ttl: nat)
    ensures ExpiredIds([], now, ttl) == {} && terminal[..0] == []
    ensures ttl == 0 ==> ExpiredIds(terminal, now, ttl) == {}
  {
  }

  method ChooseRemovals(listed: seq<Job>, now: int, ttl: nat, maxFiles: nat) returns (toRemove: set<string>)
    ensures toRemove == ToRemove(listed, now, ttl, maxFiles)
  {
    hide Sort, ExpiredIds, TerminalJobs;
    var terminalJobs := FilterTerminal(listed);
    toRemove := ChooseExpired(terminalJobs, now, ttl);
    ghost var expired := toRemove;
    if maxFiles > 0 && |listed| - |toRemove| > maxFiles {
      var overflow := |listed| - |toRemove| - maxFiles;
      var targetRemovalCount := |toRemove| + overflow;
      var orderedTerminal := Sort(terminalJobs, Older);
      var k := 0;
      assert orderedTerminal[0..] == orderedTerminal;
      while k < |orderedTerminal| && |toRemove| < targetRemovalCount
        invariant k <= |orderedTerminal|
        invariant TakeUntil(orderedTerminal[k..], toRemove, targetRemovalCount)
                  == TakeUntil(orderedTerminal, expired, targetRemovalCount)
      {
        assert orderedTerminal[k..][1..] == orderedTerminal[k + 1..];
        toRemove := toRemove + {orderedTerminal[k].id};
        k := k + 1;
      }
    }
  }

  method FilterTerminal(jobs: seq<Job>) returns (terminal: seq<Job>)
    ensures terminal == TerminalJobs(jobs)
  {
    terminal := [];
    for k := 0 to |jobs|
      invariant terminal == TerminalJobs(jobs[..k])
    {
      assert jobs[..k + 1][..k] == jobs[..k];
      if RetentionTerminal(jobs[k]) {
        terminal := terminal + [jobs[k]];
      }
    }
    assert jobs[..|jobs|] == jobs;
  }

  lemma NothingToPrune(now: int, ttl: nat, maxFiles: nat)
    ensures ToRemove([], now, ttl, maxFiles) == {} && Kept([], {}) == []
  {
  }

  lemma ExpiredIdsAppend(terminal: seq<Job>, job: Job, now: int, ttl: nat)
    ensures ExpiredIds(terminal + [job], now, ttl) == ExpiredIds(terminal, now, ttl) + if PastTtl(job, now, ttl) then {job.id} else {}
  {
  }

  // ---- what is removed ----

  ghost predicate DistinctIds(jobs: seq<Job>) {
    forall i, j :: 0 <= i < j < |jobs| ==> jobs[i].id != jobs[j].id
  }

  lemma {:induction false} TerminalJobsAre(jobs: seq<Job>)
    ensures forall job :: job in TerminalJobs(jobs) <==> job in jobs && RetentionTerminal(job)
  {
    if jobs != [] {
      TerminalJobsAre(jobs[..|jobs| - 1]);
      assert jobs == jobs[..|jobs| - 1] + [jobs[|jobs| - 1]];
    }
  }

  function Ids(jobs: seq<Job>): set<string> {
    set job | job in jobs :: job.id
  }

  lemma IdsOfCons(job: Job, rest: seq<Job>)
    ensures Ids([job] + rest) == {job.id} + Ids(rest)
  {
  }

  lemma NoIds(jobs: seq<Job>)
    ensures Ids(jobs[..0]) == {}
  {
  }

  lemma AddOne(ids: set<string>, id: string)
    ensures |ids + {id}| <= |ids| + 1
  {
    if id in ids {
      assert ids + {id} == ids;
    }
  }

  /** The chosen ids are the expired ones and those of some front part of the ordered jobs; the choice stops as soon
      as it is large enough, or when there is nothing left to choose. */
  lemma {:induction false} TakeUntilTakesAFront(ordered: seq<Job>, chosen: set<string>, target: int) returns (k: nat)
    ensures k <= |ordered| && TakeUntil(ordered, chosen, target) == chosen + Ids(ordered[..k])
    ensures |TakeUntil(ordered, chosen, target)| >= target || k == |ordered|
    ensures |chosen| <= target ==> |TakeUntil(ordered, chosen, target)| <= target
  {
    hide Ids;
    if ordered == [] || |chosen| >= target {
      k := 0;
      NoIds(ordered);
    } else {
      var id := ordered[0].id;
      var k' := TakeUntilTakesAFront(ordered[1..], chosen + {id}, target);
      k := k' + 1;
      assert ordered[..k] == [ordered[0]] + ordered[1..][..k'];
      IdsOfCons(ordered[0], ordered[1..][..k']);
      assert |chosen + {id}| <= |chosen| + 1 by { AddOne(chosen, id); }
    }
  }

  lemma OlderIsTotal()
    ensures TotalPreorder(Older)
  {
  }

  /** The whole choice: the expired jobs and a front part of the finished jobs by age. */
  lemma RemovalIsAFront(jobs: seq<Job>, now: int, ttl: nat, maxFiles: nat) returns (k: nat)
    ensures var ordered, expired := Sort(TerminalJobs(jobs), Older), ExpiredIds(TerminalJobs(jobs), now, ttl);
            var gone := ToRemove(jobs, now, ttl, maxFiles);
            && k <= |ordered| && gone == expired + Ids(ordered[..k])
            && (maxFiles > 0 ==> |jobs| - |gone| <= maxFiles || k == |ordered|)
            && (gone != expired ==> |jobs| - |gone| >= maxFiles > 0)
  {
    hide TerminalJobs, Sort, ExpiredIds;
    var ordered, expired := Sort(TerminalJobs(jobs), Older), ExpiredIds(TerminalJobs(jobs), now, ttl);
    if maxFiles > 0 && |jobs| - |expired| > maxFiles {
      k := TakeUntilTakesAFront(ordered, expired, |jobs| - maxFiles);
    } else {
      k := 0;
      assert Ids(ordered[..0]) == {};
    }
  }

  /** The jobs in age order are the finished jobs. */
  lemma OrderedAre(jobs: seq<Job>)
    ensures forall job :: job in Sort(TerminalJobs(jobs), Older) <==> job in jobs && RetentionTerminal(job)
    ensures forall job :: job in TerminalJobs(jobs) <==> job in jobs && RetentionTerminal(job)
  {
    hide RetentionTerminal;
    TerminalJobsAre(jobs);
    SortPermutes(TerminalJobs(jobs), Older);
  }

  /** Only finished jobs go, and every finished job past its time to live goes. */
  lemma OnlyFinishedJobsGo(jobs: seq<Job>, now: int, ttl: nat, maxFiles: nat)
    ensures forall id :: id in ToRemove(jobs, now, ttl, maxFiles) ==>
              exists job :: job in jobs && RetentionTerminal(job) && job.id == id
    ensures forall job :: job in jobs && RetentionTerminal(job) && PastTtl(job, now, ttl) ==>
              job.id in ToRemove(jobs, now, ttl, maxFiles)
  {
    hide TerminalJobs, RetentionTerminal, Sort, ToRemove;
    OrderedAre(jobs);
    var k := RemovalIsAFront(jobs, now, ttl, maxFiles);
    var ordered := Sort(TerminalJobs(jobs), Older);
    forall id | id in ToRemove(jobs, now, ttl, maxFiles)
      ensures exists job :: job in jobs && RetentionTerminal(job) && job.id == id
    {
      if id in Ids(ordered[..k]) {
        var job :| job in ordered[..k] && job.id == id;
        assert job in ordered;
      } else {
        var job :| job in TerminalJobs(jobs) && job.id == id;
      }
    }
  }

  /** With a cap, either the cap is met or no finished job is left; and the cap takes no job more than it needs: when
      anything beyond the expired jobs goes, no fewer than the cap allows remain. */
  lemma CapIsMetAndNoMore(jobs: seq<Job>, now: int, ttl: nat, maxFiles: nat)
    requires DistinctIds(jobs)
    ensures var gone := ToRemove(jobs, now, ttl, maxFiles);
            && |Kept(jobs, gone)| == |jobs| - |gone|
            && (maxFiles > 0 ==>
                  |Kept(jobs, gone)| <= maxFiles || forall job :: job in jobs && RetentionTerminal(job) ==> job.id in gone)
            && (gone != ExpiredIds(TerminalJobs(jobs), now, ttl) ==> |Kept(jobs, gone)| >= maxFiles > 0)
  {
    hide TerminalJobs, RetentionTerminal, Sort, Kept, ToRemove, ExpiredIds;
    OrderedAre(jobs);
    var k := RemovalIsAFront(jobs, now, ttl, maxFiles);
    var ordered := Sort(TerminalJobs(jobs), Older);
    if k == |ordered| {
      assert ordered[..k] == ordered;
    }
    OnlyFinishedJobsGo(jobs, now, ttl, maxFiles);
    assert ToRemove(jobs, now, ttl, maxFiles) <= Ids(jobs);
    KeptCounts(jobs, ToRemove(jobs, now, ttl, maxFiles));
  }

  lemma {:induction false} KeptCounts(jobs: seq<Job>, gone: set<string>)
    requires DistinctIds(jobs) && gone <= Ids(jobs)
    ensures |Kept(jobs, gone)| == |jobs| - |gone|
  {
    if jobs == [] {
      assert gone == {};
    } else {
      var id := jobs[0].id;
      assert jobs == [jobs[0]] + jobs[1..];
      assert forall job :: job in jobs[1..] ==> job.id != id;
      KeptIgnores(jobs[1..], gone, id);
      KeptCounts(jobs[1..], gone - {id});
    }
  }

  lemma {:induction false} KeptIgnores(jobs: seq<Job>, gone: set<string>, id: string)
    requires forall job :: job in jobs ==> job.id != id
    ensures Kept(jobs, gone) == Kept(jobs, gone - {id})
  {
    if jobs != [] {
      KeptIgnores(jobs[1..], gone, id);
    }
  }

  /** What the cap takes are the oldest of the finished jobs: none that stays is older than one that the cap took. */
  lemma CapTakesTheOldest(jobs: seq<Job>, now: int, ttl: nat, maxFiles: nat, taken: Job, left: Job)
    requires DistinctIds(jobs) && taken in jobs && left in jobs && RetentionTerminal(taken) && RetentionTerminal(left)
    requires taken.id in ToRemove(jobs, now, ttl, maxFiles) && !PastTtl(taken, now, ttl)
    requires left.id !in ToRemove(jobs, now, ttl, maxFiles)
    ensures taken.timestamp <= left.timestamp
  {
    hide TerminalJobs, RetentionTerminal, Sort, ToRemove, DistinctIds;
    OrderedAre(jobs);
    OlderIsTotal();
    SortSorts(TerminalJobs(jobs), Older);
    SameIdSameJob(jobs, taken);
    var k := RemovalIsAFront(jobs, now, ttl, maxFiles);
    var ordered := Sort(TerminalJobs(jobs), Older);
    TakenIsInFront(jobs, now, ttl, ordered[..k], taken);
    var i :| 0 <= i < k && ordered[i] == taken;
    var j :| 0 <= j < |ordered| && ordered[j] == left;
    assert left !in ordered[..k];
    assert forall l :: 0 <= l < k ==> ordered[l] in ordered[..k];
    assert Older(ordered[i], ordered[j]);
  }

  lemma TakenIsInFront(jobs: seq<Job>, now: int, ttl: nat, front: seq<Job>, taken: Job)
    requires taken.id in ExpiredIds(TerminalJobs(jobs), now, ttl) + Ids(front) && !PastTtl(taken, now, ttl)
    requires forall other :: other in jobs && other.id == taken.id ==> other == taken
    requires (forall job :: job in front ==> job in jobs) && forall job :: job in TerminalJobs(jobs) ==> job in jobs
    ensures taken in front
  {
    hide TerminalJobs;
  }

  lemma SameIdSameJob(jobs: seq<Job>, job: Job)
    requires DistinctIds(jobs) && job in jobs
    ensures forall other :: other in jobs && other.id == job.id ==> other == job
  {
  }

  /** The archived reason is right except for one kind of job: a finished job without a usable timestamp that the cap
      took while a time to live was set is archived as expired. */
  lemma ReasonIsWrongExactly(jobs: seq<Job>, now: int, ttl: nat, maxFiles: nat, job: Job)
    requires job in jobs && job.id in ToRemove(jobs, now, ttl, maxFiles)
    ensures (ReasonFor(job, now, ttl) == TtlExpired) != PastTtl(job, now, ttl) <==> job.timestamp == 0 && 0 < ttl < now
  {
  }

  lemma FailedIsFinished(id: string)
    ensures RetentionTerminal(Job(id, "failed", 0))
  {
    assert Lower("failed") == "failed";
  }

  /** Such jobs are archived: of two failed jobs without a timestamp, a cap of one takes one and archives it as expired. */
  lemma SomeReasonIsWrong() returns (job: Job)
    ensures var jobs := [Job("a", "failed", 0), Job("b", "failed", 0)];
            && job in jobs && job.id in ToRemove(jobs, 10, 5, 1)
            && ReasonFor(job, 10, 5) == TtlExpired && !PastTtl(job, 10, 5)
  {
    var jobs := [Job("a", "failed", 0), Job("b", "failed", 0)];
    FailedIsFinished("a");
    FailedIsFinished("b");
    hide ToRemove, RetentionTerminal, Kept;
    assert "a"[0] != "b"[0];
    CapIsMetAndNoMore(jobs, 10, 5, 1);
    var gone := ToRemove(jobs, 10, 5, 1);
    OnlyFinishedJobsGo(jobs, 10, 5, 1);
    assert jobs[0] in jobs;
    assert jobs[0].id in gone || |gone| >= 1;
    var id :| id in gone;
    job :| job in jobs && RetentionTerminal(job) && job.id == id;
  }

  // ---- the choice in plain terms ----

  /** Letter case aside, a job is finished in these statuses and in no other. */
  lemma FinishedStatuses(job: Job)
    ensures RetentionTerminal(job) <==>
              || Lower(job.status) == "completed" || Lower(job.status) == "submitted" || Lower(job.status) == "failed"
              || Lower(job.status) == "cancelled" || Lower(job.status) == "canceled" || Lower(job.status) == "closed"
              || Lower(job.status) == "expired" || Lower(job.status) == "disputed"
  {
  }

  /** Of the finished jobs those with a timestamp more than the time to live ago go, whatever the cap; without a cap no
      others do, and without either nothing goes. */
  lemma AgeDecides(jobs: seq<Job>, now: int, ttl: nat, maxFiles: nat, job: Job)
    requires DistinctIds(jobs) && job in jobs
    ensures RetentionTerminal(job) && 0 < ttl && job.timestamp != 0 && job.timestamp + ttl < now ==>
              job.id in ToRemove(jobs, now, ttl, maxFiles)
    ensures job.id in ToRemove(jobs, now, ttl, 0) <==>
              RetentionTerminal(job) && 0 < ttl && job.timestamp != 0 && job.timestamp + ttl < now
    ensures |jobs| <= maxFiles ==> ToRemove(jobs, now, 0, maxFiles) == {}
  {
    hide RetentionTerminal, TerminalJobs, Sort;
    TerminalJobsAre(jobs);
    OnlyFinishedJobsGo(jobs, now, ttl, maxFiles);
    SameIdSameJob(jobs, job);
  }

  /** The files that stay are the files of the other jobs. */
  lemma {:induction false} KeptAre(jobs: seq<Job>, removed: set<string>, job: Job)
    ensures job in Kept(jobs, removed) <==> job in jobs && job.id !in removed
  {
    if jobs != [] {
      KeptAre(jobs[1..], removed, job);
    }
  }

  /** The archived job is the listed one of that id. */
  lemma {:induction false} FindIs(jobs: seq<Job>, id: string)
    ensures Find(jobs, id).Some? <==> exists i :: 0 <= i < |jobs| && jobs[i].id == id
    ensures Find(jobs, id).Some? ==> Find(jobs, id).value in jobs && Find(jobs, id).value.id == id
  {
    if jobs != [] {
      FindIs(jobs[1..], id);
      if i :| 0 <= i < |jobs| && jobs[i].id == id && jobs[0].id != id {
        assert jobs[1..][i - 1].id == id;
      }
    }
  }
}

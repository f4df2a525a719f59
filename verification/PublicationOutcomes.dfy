/** Which candidates are published, and what a pass that is left alone does with each job. */
module PublicationOutcomes {
  import opened Outcomes
  import opened Publication
  import opened PublicationSafety

  // ---- only candidates that passed ----

  /** The candidate descends from this base, changes nothing the base changed meanwhile, and its checks pass on it. */
  predicate SitsOn(e: Evidence, base: Commit) { base !in e.detached && base !in e.overlapping && base !in e.failing && e.time != "" }

  /** The commit is this job's candidate, which passed its gate, validates and is admitted, on a base it sits on. */
  predicate EarnedBy(m: Made, job: string, evidence: map<string, Evidence>) {
    && job in evidence
    && var e := evidence[job];
    && e.passed && e.valid && e.admitted && m.branch == e.branch
    && m.commit.Candidate? && m.commit == Candidate(m.commit.base, job, e.time, e.message) && SitsOn(e, m.commit.base)
  }

  ghost predicate Earned(m: Made, listed: set<string>, evidence: map<string, Evidence>) {
    exists job :: job in listed && EarnedBy(m, job, evidence)
  }

  ghost predicate AllEarned(r: Run, listed: set<string>, evidence: map<string, Evidence>) {
    forall i :: 0 <= i < |r.pushes| ==> Earned(r.pushes[i], listed, evidence)
  }

  lemma PublishingAdds(r: Run, job: string, e: Evidence, base: string)
    ensures
      var p := Published(r, job, e, base).run;
      p.pushes == r.pushes
      || (e.valid && e.admitted && |p.pushes| == |r.pushes| + 1 && r.pushes <= p.pushes
          && var m := p.pushes[|r.pushes|];
          && m.branch == e.branch && m.commit.Candidate? && m.commit == Candidate(m.commit.base, job, e.time, e.message) && SitsOn(e, m.commit.base))
  {
    ObservingKeepsBranches(r);
    var o := Observed(r);
    ObservingKeepsBranches(o);
    var later := Observed(o);
    var commit := Candidate(o.remote.main, job, e.time, e.message);
    ObservingKeepsBranches(later);
    DraftingKeepsBranches(Pushed(later, e.branch, commit).run, e.branch, commit, base);
    hide Observed, Drafting;
  }

  lemma JobEarns(r: Run, job: string, listed: set<string>, evidence: map<string, Evidence>, base: string)
    requires AllEarned(r, listed, evidence) && job in listed
    ensures AllEarned(JobDone(r, job, evidence, base).run, listed, evidence)
  {
    ObservingKeepsBranches(r);
    hide Published, Observed;
    if job in evidence && job !in r.ledger && evidence[job].passed {
      PublishingAdds(r, job, evidence[job], base);
      var t := JobDone(r, job, evidence, base).run;
      assert t.pushes == Published(r, job, evidence[job], base).run.pushes;
      forall i | 0 <= i < |t.pushes| ensures Earned(t.pushes[i], listed, evidence) {
        if i < |r.pushes| {
          assert t.pushes[i] == r.pushes[i];
        } else {
          assert EarnedBy(t.pushes[i], job, evidence);
        }
      }
    }
  }

  lemma {:induction false} JobsEarn(r: Run, jobs: seq<string>, listed: set<string>, evidence: map<string, Evidence>, base: string)
    requires AllEarned(r, listed, evidence) && forall job :: job in jobs ==> job in listed
    ensures AllEarned(JobsDone(r, jobs, evidence, base).run, listed, evidence)
    decreases |jobs|
  {
    hide AllEarned, JobDone;
    if jobs != [] {
      JobEarns(r, jobs[0], listed, evidence, base);
      JobsEarn(JobDone(r, jobs[0], evidence, base).run, jobs[1..], listed, evidence, base);
    }
  }

  predicate AllListed(sessions: seq<Session>, listed: set<string>) {
    forall s :: s in sessions ==> forall job :: job in s.jobs ==> job in listed
  }

  lemma {:induction false} SessionsEarn(r: Run, sessions: seq<Session>, listed: set<string>, evidence: map<string, Evidence>, base: string)
    requires AllEarned(r, listed, evidence) && AllListed(sessions, listed)
    ensures AllEarned(AfterSessions(r, sessions, evidence, base), listed, evidence)
    decreases |sessions|
  {
    if sessions != [] {
      var s := sessions[0];
      var start := r.(others := s.others, budget := s.budget);
      assert AllEarned(start, listed, evidence);
      assert s in sessions;
      forall job | job in NewFirst(s.jobs, start.ledger) ensures job in listed {
        EveryJobOnce(s.jobs, start.ledger);
        assert job in multiset(NewFirst(s.jobs, start.ledger));
      }
      hide AllEarned, JobsDone, NewFirst;
      JobsEarn(start, NewFirst(s.jobs, start.ledger), listed, evidence, base);
      SessionsEarn(RanOnce(start, s.jobs, evidence, base).run, sessions[1..], listed, evidence, base);
    }
  }

  function ListedIn(sessions: seq<Session>): set<string> { set s, job | s in sessions && job in s.jobs :: job }

  /**
   Over any passes, dying anywhere, with the product base moving at will: every branch pushed and every draft opened is
   of the candidate of a listed job that passed its gate, whose evidence validates and is admitted, on a base that the
   candidate descends from, does not overlap with, and passes its checks on.
   */
  lemma OnlyPassedIsPublished(main: Commit, sessions: seq<Session>, evidence: map<string, Evidence>, base: string)
    ensures
      var t := AfterSessions(Run(map[], Remote(main, map[], map[]), [], [], [], 0), sessions, evidence, base);
      && (forall i :: 0 <= i < |t.pushes| ==> Earned(t.pushes[i], ListedIn(sessions), evidence))
      && (forall i :: 0 <= i < |t.drafts| ==> Earned(t.drafts[i], ListedIn(sessions), evidence))
  {
    var r := Run(map[], Remote(main, map[], map[]), [], [], [], 0);
    assert AllListed(sessions, ListedIn(sessions));
    hide AfterSessions, Earned;
    OnePullPerBranch(main, sessions, evidence, base);
    SessionsEarn(r, sessions, ListedIn(sessions), evidence, base);
  }

  // ---- one job, left alone ----

  /** The branch, if it exists, is at the candidate, and its pull request, if any, is the open draft of it. */
  predicate Clear(r: Run, e: Evidence, commit: Commit, base: string) {
    (e.branch in r.remote.branches ==> r.remote.branches[e.branch] == commit) && PullFits(r, e.branch, commit, base)
  }

  function CandidateOf(r: Run, job: string, e: Evidence): Commit { Candidate(r.remote.main, job, e.time, e.message) }

  predicate Publishable(r: Run, job: string, e: Evidence, base: string) {
    e.valid && e.admitted && SitsOn(e, r.remote.main) && Clear(r, e, CandidateOf(r, job, e), base)
  }

  /** The base changed the candidate's paths: the job is disposed of. */
  predicate Drifts(r: Run, e: Evidence) { e.valid && e.admitted && r.remote.main !in e.detached && r.remote.main in e.overlapping }

  /** A drafted entry still holds: its one pull request is merged, or open at the commit with the branch undrifted. */
  predicate Holds(r: Run, e: Evidence, entry: Entry)
    requires entry.Drafted?
  {
    var pulls := PullsOf(r.remote, entry.branch);
    && entry.gate == e.gate && |pulls| == 1
    && (pulls[0].state.Merged?
        || (pulls[0].state.Open? && pulls[0].head == entry.commit
            && entry.branch in r.remote.branches && r.remote.branches[entry.branch] == entry.commit))
  }

  /** A job that does not stop the pass. */
  predicate Passable(r: Run, job: string, evidence: map<string, Evidence>, base: string) {
    job in evidence ==>
      var e := evidence[job];
      if job in r.ledger then r.ledger[job].PathDrift? || Holds(r, e, r.ledger[job])
      else e.passed ==> Publishable(r, job, e, base) || Drifts(r, e)
  }

  /** What a pass notes of a job that was not in the ledger. */
  function Noted(r: Run, job: string, evidence: map<string, Evidence>, base: string): Option<Entry> {
    if job !in evidence || !evidence[job].passed then None
    else if Publishable(r, job, evidence[job], base) then Some(Drafted(evidence[job].gate, evidence[job].branch, CandidateOf(r, job, evidence[job])))
    else if Drifts(r, evidence[job]) then Some(PathDrift(evidence[job].gate))
    else None
  }

  /** Nothing but this branch and its pull request changed on the remote. */
  ghost predicate Elsewhere(r: Run, t: Run, branch: string) {
    && t.others == [] && t.ledger == r.ledger && t.remote.main == r.remote.main
    && forall other :: other != branch ==>
      && (other in t.remote.branches <==> other in r.remote.branches)
      && (other in r.remote.branches ==> t.remote.branches[other] == r.remote.branches[other])
      && PullsOf(t.remote, other) == PullsOf(r.remote, other)
  }

  lemma PushedLeftAlone(r: Run, branch: string, commit: Commit)
    requires r.others == [] && r.budget >= 1
    ensures
      var t := Pushed(r, branch, commit);
      && Elsewhere(r, t.run, branch) && PullsOf(t.run.remote, branch) == PullsOf(r.remote, branch) && t.run.budget >= r.budget - 1
      && (t.result.Ok? <==> branch in r.remote.branches ==> r.remote.branches[branch] == commit)
      && (t.result.Ok? ==> branch in t.run.remote.branches && t.run.remote.branches[branch] == commit)
      && (t.result.Err? ==> t.result == Err(BranchTaken))
  {}

  lemma FoundExactly(remote: Remote, branch: string, commit: Commit, base: string)
    ensures FoundPull(remote, branch, commit, base) == Ok(false) <==> PullsOf(remote, branch) == []
    ensures FoundPull(remote, branch, commit, base) == Ok(true) <==> PullsOf(remote, branch) == [Pull(Open, true, commit, base)]
    ensures FoundPull(remote, branch, commit, base) != Err(Overlapping)
  {
    hide PullsOf;
    var pulls := PullsOf(remote, branch);
    if |pulls| == 1 {
      assert pulls == [pulls[0]];
    }
  }

  lemma DraftingLeftAlone(r: Run, branch: string, commit: Commit, base: string)
    requires r.others == [] && r.budget >= 1 && branch in r.remote.branches && r.remote.branches[branch] == commit
    ensures
      var t := Drafting(r, branch, commit, base);
      && Elsewhere(r, t.run, branch) && t.run.remote.branches == r.remote.branches && t.run.budget >= r.budget - 1
      && (t.result.Ok? <==> PullFits(r, branch, commit, base)) && t.result != Err(Overlapping)
      && (t.result.Ok? ==> PullsOf(t.run.remote, branch) == [Pull(Open, true, commit, base)])
  {
    FoundExactly(r.remote, branch, commit, base);
    if PullsOf(r.remote, branch) == [] {
      var created := DraftCreated(r, branch, base).run;
      assert PullsOf(created.remote, branch) == [Pull(Open, true, commit, base)];
      FoundExactly(created.remote, branch, commit, base);
    }
    hide FoundPull;
  }

  lemma PublishedLeftAlone(r: Run, job: string, e: Evidence, base: string)
    requires r.others == [] && r.budget >= 3
    ensures
      var p, commit := Published(r, job, e, base), CandidateOf(r, job, e);
      && Elsewhere(r, p.run, e.branch) && p.run.budget >= r.budget - 2
      && (p.result.Ok? <==> Publishable(r, job, e, base))
      && (p.result.Ok? ==>
        && p.result.value == Drafted(e.gate, e.branch, commit)
        && e.branch in p.run.remote.branches && p.run.remote.branches[e.branch] == commit
        && PullsOf(p.run.remote, e.branch) == [Pull(Open, true, commit, base)])
      && (p.result == Err(Overlapping) <==> Drifts(r, e))
      && (Drifts(r, e) ==> p.run == r)
  {
    assert Observed(r) == r;
    var commit := CandidateOf(r, job, e);
    PushedLeftAlone(r, e.branch, commit);
    var pushed := Pushed(r, e.branch, commit);
    if pushed.result.Ok? {
      DraftingLeftAlone(pushed.run, e.branch, commit, base);
      BothElsewhere(r, pushed.run, Drafting(pushed.run, e.branch, commit, base).run, e.branch);
    }
    BothElsewhere(r, r, r, e.branch);
    hide Pushed, Drafting, Observed, Elsewhere, PullsOf;
  }

  lemma BothElsewhere(a: Run, b: Run, c: Run, branch: string)
    ensures Elsewhere(a, b, branch) && Elsewhere(b, c, branch) ==> Elsewhere(a, c, branch)
    ensures a.others == [] ==> Elsewhere(a, a, branch)
  {}

  lemma VerifiedLeftAlone(r: Run, e: Evidence, entry: Entry)
    requires r.others == [] && entry.Drafted?
    ensures Verified(r, e, entry).run == r && (Verified(r, e, entry).result.Ok? <==> Holds(r, e, entry))
  {}

  /**
   A job taken alone: the pass goes on exactly if the job is passable. A job with an entry, without evidence, or whose
   gate did not pass changes nothing; a publishable one ends drafted, with its branch and pull request at its candidate;
   one whose paths the base changed is noted as that.
   */
  lemma JobDecided(r: Run, job: string, evidence: map<string, Evidence>, base: string)
    requires r.others == [] && r.budget >= 3
    ensures
      var t, noted := JobDone(r, job, evidence, base), Noted(r, job, evidence, base);
      && (t.result.Ok? <==> Passable(r, job, evidence, base))
      && (t.result.Err? ==> job in evidence && Elsewhere(r, t.run, evidence[job].branch))
      && (t.result.Ok? && (job in r.ledger || noted.None?) ==> t.run == r)
      && (t.result.Ok? && job !in r.ledger && noted.Some? ==>
        && t.run.ledger == r.ledger[job := noted.value] && t.run.budget >= r.budget - 3
        && Elsewhere(r.(ledger := t.run.ledger), t.run, evidence[job].branch)
        && (noted.value.Drafted? ==>
          && evidence[job].branch in t.run.remote.branches && t.run.remote.branches[evidence[job].branch] == noted.value.commit
          && PullsOf(t.run.remote, evidence[job].branch) == [Pull(Open, true, noted.value.commit, base)])
        && (noted.value.PathDrift? ==> t.run.remote == r.remote))
  {
    if job in evidence {
      PublishedLeftAlone(r, job, evidence[job], base);
      if job in r.ledger && r.ledger[job].Drafted? {
        VerifiedLeftAlone(r, evidence[job], r.ledger[job]);
      }
      BothElsewhere(r, r, r, evidence[job].branch);
    }
    hide Published, Verified, Publishable, Drifts, Holds, PullsOf;
  }

  // ---- a pass, left alone ----

  /** Jobs have branches of their own, and drafted entries are of their job's branch. */
  predicate Separate(ledger: map<string, Entry>, evidence: map<string, Evidence>) {
    && (forall a, b :: a in evidence && b in evidence && a != b ==> evidence[a].branch != evidence[b].branch)
    && (forall job :: job in ledger && job in evidence && ledger[job].Drafted? ==> ledger[job].branch == evidence[job].branch)
  }

  /** The job's entry, or the entry it is due, and its pull request. */
  predicate Lands(r: Run, t: Run, job: string, evidence: map<string, Evidence>, base: string) {
    if job in r.ledger then job in t.ledger && t.ledger[job] == r.ledger[job]
    else
      var noted := Noted(r, job, evidence, base);
      && (noted.None? ==> job !in t.ledger)
      && (noted.Some? ==> job in t.ledger && t.ledger[job] == noted.value)
      && (noted.Some? && noted.value.Drafted? ==>
        && noted.value.branch in t.remote.branches && t.remote.branches[noted.value.branch] == noted.value.commit
        && PullsOf(t.remote, noted.value.branch) == [Pull(Open, true, noted.value.commit, base)])
  }

  /** What the pass has for a job, it has for it whatever became of other jobs. */
  ghost predicate Apart(r: Run, t: Run, jobs: seq<string>, evidence: map<string, Evidence>) {
    && t.others == [] && t.remote.main == r.remote.main
    && (forall job :: job !in jobs ==> (job in t.ledger <==> job in r.ledger) && (job in r.ledger ==> t.ledger[job] == r.ledger[job]))
    && (forall job :: job !in jobs && job in evidence ==>
      var branch := evidence[job].branch;
      && (branch in t.remote.branches <==> branch in r.remote.branches)
      && (branch in r.remote.branches ==> t.remote.branches[branch] == r.remote.branches[branch])
      && PullsOf(t.remote, branch) == PullsOf(r.remote, branch))
  }

  lemma JobIsApart(r: Run, job: string, evidence: map<string, Evidence>, base: string)
    requires r.others == [] && r.budget >= 3 && Separate(r.ledger, evidence)
    ensures
      var t := JobDone(r, job, evidence, base);
      && Apart(r, t.run, [job], evidence)
      && (t.result.Ok? ==> Separate(t.run.ledger, evidence) && Lands(r, t.run, job, evidence, base) && t.run.budget >= r.budget - 3)
  {
    JobDecided(r, job, evidence, base);
    var t, noted := JobDone(r, job, evidence, base), Noted(r, job, evidence, base);
    hide JobDone, Passable, Noted, Apart, Elsewhere, Lands, Separate, PullsOf;
    SelfIsApart(r, job, evidence, base);
    NothingIsNoted(r, job, evidence, base);
    if t.result.Err? || (job !in r.ledger && noted.Some?) {
      ElsewhereIsApart(r, t.run, job, evidence);
      if t.result.Ok? {
        NotedLands(r, t.run, job, evidence, base);
      }
    }
  }

  lemma NothingIsNoted(r: Run, job: string, evidence: map<string, Evidence>, base: string)
    ensures job !in evidence ==> Noted(r, job, evidence, base).None?
    ensures Noted(r, job, evidence, base).Some? && Noted(r, job, evidence, base).value.Drafted? ==>
      job in evidence && Noted(r, job, evidence, base).value.branch == evidence[job].branch
  {}

  lemma SelfIsApart(r: Run, job: string, evidence: map<string, Evidence>, base: string)
    requires r.others == []
    ensures Apart(r, r, [job], evidence)
    ensures job in r.ledger || Noted(r, job, evidence, base).None? ==> Lands(r, r, job, evidence, base)
  {
    hide Noted, PullsOf;
  }

  lemma ElsewhereIsApart(r: Run, t: Run, job: string, evidence: map<string, Evidence>)
    requires job in evidence && Separate(r.ledger, evidence) && Elsewhere(r.(ledger := t.ledger), t, evidence[job].branch)
    requires forall other :: other != job ==>
      (other in t.ledger <==> other in r.ledger) && (other in r.ledger ==> t.ledger[other] == r.ledger[other])
    ensures Apart(r, t, [job], evidence)
  {
    hide PullsOf;
  }

  lemma NotedLands(r: Run, t: Run, job: string, evidence: map<string, Evidence>, base: string)
    requires job !in r.ledger && Noted(r, job, evidence, base).Some? && Separate(r.ledger, evidence)
    requires
      var noted := Noted(r, job, evidence, base).value;
      && t.ledger == r.ledger[job := noted]
      && (noted.Drafted? ==>
        && job in evidence && evidence[job].branch in t.remote.branches && t.remote.branches[evidence[job].branch] == noted.commit
        && PullsOf(t.remote, evidence[job].branch) == [Pull(Open, true, noted.commit, base)])
    ensures Lands(r, t, job, evidence, base) && Separate(t.ledger, evidence)
  {
    NothingIsNoted(r, job, evidence, base);
    hide Noted, PullsOf;
  }

  lemma ApartStaysPassable(r: Run, u: Run, jobs: seq<string>, job: string, evidence: map<string, Evidence>, base: string)
    requires Apart(r, u, jobs, evidence) && job !in jobs && Separate(r.ledger, evidence)
    ensures Passable(u, job, evidence, base) <==> Passable(r, job, evidence, base)
    ensures Noted(u, job, evidence, base) == Noted(r, job, evidence, base)
    ensures forall t :: Lands(u, t, job, evidence, base) ==> Lands(r, t, job, evidence, base)
  {
    hide PullsOf;
  }

  lemma LandedStays(r: Run, u: Run, t: Run, job: string, rest: seq<string>, evidence: map<string, Evidence>, base: string)
    requires Lands(r, u, job, evidence, base) && Apart(u, t, rest, evidence) && job !in rest
    ensures Lands(r, t, job, evidence, base)
  {
    hide PullsOf, Publishable, Drifts;
  }

  lemma ApartTogether(r: Run, u: Run, t: Run, job: string, rest: seq<string>, evidence: map<string, Evidence>)
    requires Apart(r, u, [job], evidence) && Apart(u, t, rest, evidence)
    ensures Apart(r, t, [job] + rest, evidence)
  {
    hide PullsOf;
  }

  lemma {:induction false} PassDecided(r: Run, jobs: seq<string>, evidence: map<string, Evidence>, base: string)
    requires r.others == [] && r.budget >= 3 * |jobs| && Separate(r.ledger, evidence)
    requires forall i, j :: 0 <= i < j < |jobs| ==> jobs[i] != jobs[j]
    ensures
      var t := JobsDone(r, jobs, evidence, base);
      && Apart(r, t.run, jobs, evidence)
      && (t.result.Ok? <==> forall i :: 0 <= i < |jobs| ==> Passable(r, jobs[i], evidence, base))
      && (forall i :: 0 <= i < |jobs| && (forall j :: 0 <= j <= i ==> Passable(r, jobs[j], evidence, base)) ==> Lands(r, t.run, jobs[i], evidence, base))
    decreases |jobs|
  {
    hide JobDone, Passable, Lands, Apart, Separate;
    if jobs == [] {
      NothingApart(r, evidence);
    } else {
      var job, rest := jobs[0], jobs[1..];
      assert jobs == [job] + rest && job !in rest;
      var t := JobsDone(r, jobs, evidence, base).run;
      var u := JobDone(r, job, evidence, base).run;
      JobDecided(r, job, evidence, base);
      JobIsApart(r, job, evidence, base);
      if JobDone(r, job, evidence, base).result.Ok? {
        ApartIsAlone(r, u, [job], evidence);
        PassDecided(u, rest, evidence, base);
        ApartTogether(r, u, t, job, rest, evidence);
        LandedStays(r, u, t, job, rest, evidence, base);
        forall i | 0 <= i < |rest| ensures Passable(u, rest[i], evidence, base) <==> Passable(r, jobs[i + 1], evidence, base) {
          ApartStaysPassable(r, u, [job], rest[i], evidence, base);
        }
        forall i | 0 <= i < |jobs| && (forall j :: 0 <= j <= i ==> Passable(r, jobs[j], evidence, base)) ensures Lands(r, t, jobs[i], evidence, base) {
          if i > 0 {
            RestPassable(r, u, jobs, i, evidence, base);
            ApartStaysPassable(r, u, [job], rest[i - 1], evidence, base);
          }
        }
      } else {
        StoppedApart(r, u, job, rest, evidence);
      }
    }
  }

  lemma RestPassable(r: Run, u: Run, jobs: seq<string>, i: int, evidence: map<string, Evidence>, base: string)
    requires 0 < i < |jobs| && forall j :: 0 <= j <= i ==> Passable(r, jobs[j], evidence, base)
    requires forall j :: 0 <= j < |jobs[1..]| ==> (Passable(u, jobs[1..][j], evidence, base) <==> Passable(r, jobs[j + 1], evidence, base))
    ensures forall j :: 0 <= j <= i - 1 ==> Passable(u, jobs[1..][j], evidence, base)
  {
    hide Passable;
    forall j | 0 <= j <= i - 1 ensures Passable(u, jobs[1..][j], evidence, base) {
      assert Passable(r, jobs[j + 1], evidence, base);
    }
  }

  lemma NothingApart(r: Run, evidence: map<string, Evidence>)
    requires r.others == []
    ensures Apart(r, r, [], evidence)
  {}

  lemma ApartIsAlone(r: Run, u: Run, jobs: seq<string>, evidence: map<string, Evidence>)
    requires Apart(r, u, jobs, evidence)
    ensures u.others == []
  {}

  lemma StoppedApart(r: Run, u: Run, job: string, rest: seq<string>, evidence: map<string, Evidence>)
    requires Apart(r, u, [job], evidence)
    ensures Apart(r, u, [job] + rest, evidence)
  {
    hide PullsOf;
  }

  /**
   A pass left alone succeeds exactly if every listed job is passable. Then each of them has the entry it had, or the one
   it is due: every job that passed its gate and is publishable is drafted, with its branch and its one open draft at its
   candidate; one whose paths the base changed is noted; and one whose gate failed or that has no evidence has no entry
   and holds up nothing.
   */
  lemma PassLeftAlone(r: Run, jobs: seq<string>, evidence: map<string, Evidence>, base: string)
    requires r.others == [] && r.budget >= 3 * |jobs| && Separate(r.ledger, evidence)
    requires forall job :: multiset(jobs)[job] <= 1
    ensures
      var t := RanOnce(r, jobs, evidence, base);
      && (t.result.Ok? <==> forall job :: job in jobs ==> Passable(r, job, evidence, base))
      && (t.result.Ok? ==> forall job :: job in jobs ==> Lands(r, t.run, job, evidence, base))
  {
    var order := NewFirst(jobs, r.ledger);
    EveryJobOnce(jobs, r.ledger);
    assert |order| == |jobs| by { assert |multiset(order)| == |order| && |multiset(jobs)| == |jobs|; }
    forall i, j | 0 <= i < j < |order| ensures order[i] != order[j] {
      assert multiset(order)[order[i]] == multiset(jobs)[order[i]] <= 1;
      TwiceCounts(order, i, j);
    }
    hide NewFirst, JobsDone, Passable, Lands, Separate;
    PassDecided(r, order, evidence, base);
    forall job ensures job in jobs <==> job in order {
      assert job in jobs <==> multiset(jobs)[job] > 0;
      assert job in order <==> multiset(order)[job] > 0;
    }
    forall job | job in order ensures exists i :: 0 <= i < |order| && order[i] == job {}
  }

  lemma TwiceCounts(s: seq<string>, i: int, j: int)
    requires 0 <= i < j < |s|
    ensures s[i] == s[j] ==> multiset(s)[s[i]] >= 2
  {
    assert s == s[..i] + [s[i]] + s[i + 1..];
    assert s[i + 1..] == s[i + 1..j] + [s[j]] + s[j + 1..];
    assert multiset(s) == multiset(s[..i]) + multiset([s[i]]) + multiset(s[i + 1..]);
    assert multiset(s[i + 1..]) == multiset(s[i + 1..j]) + multiset([s[j]]) + multiset(s[j + 1..]);
  }
}

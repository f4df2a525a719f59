/** One commit and one pull request per job branch, however often publication is interrupted. */
module PublicationSafety {
  import opened Outcomes
  import opened Publication

  /** Each branch was pushed at most once, and the remote shows it. */
  predicate PushesShown(r: Run) {
    && (forall i :: 0 <= i < |r.pushes| ==> r.pushes[i].branch in r.remote.branches && r.remote.branches[r.pushes[i].branch] == r.pushes[i].commit)
    && (forall i, j :: 0 <= i < j < |r.pushes| ==> r.pushes[i].branch != r.pushes[j].branch)
  }

  /** Each branch got at most one draft, of the commit that was pushed, and the remote shows it. */
  predicate DraftsShown(r: Run) {
    && (forall i :: 0 <= i < |r.drafts| ==> r.drafts[i] in r.pushes && PullsOf(r.remote, r.drafts[i].branch) != [])
    && (forall i, j :: 0 <= i < j < |r.drafts| ==> r.drafts[i].branch != r.drafts[j].branch)
  }

  /** Every branch and pull request on the remote was made here. */
  predicate RemoteIsOurs(r: Run) {
    && (forall branch :: branch in r.remote.branches ==> Made(branch, r.remote.branches[branch]) in r.pushes)
    && (forall branch :: branch in r.remote.pulls ==> forall i :: 0 <= i < |r.remote.pulls[branch]| ==>
      Made(branch, r.remote.pulls[branch][i].head) in r.drafts)
  }

  predicate Good(r: Run) { PushesShown(r) && DraftsShown(r) && RemoteIsOurs(r) }

  ghost predicate Keeps(r: Run, t: Run) {
    && Good(t) && r.pushes <= t.pushes && r.drafts <= t.drafts
    && forall branch :: branch in r.remote.branches ==> branch in t.remote.branches && t.remote.branches[branch] == r.remote.branches[branch]
  }

  lemma KeepsCompose(a: Run, b: Run, c: Run)
    requires Keeps(a, b) && Keeps(b, c)
    ensures Keeps(a, c)
  {
    hide Good;
  }

  lemma ObservedKeeps(r: Run)
    requires Good(r)
    ensures Keeps(r, Observed(r)) && Observed(r).ledger == r.ledger && Observed(r).budget == r.budget
  {
    var o := Observed(r);
    if o.remote != r.remote {
      forall i | 0 <= i < |r.drafts| ensures PullsOf(o.remote, r.drafts[i].branch) != [] {
        assert PullsOf(r.remote, r.drafts[i].branch) != [];
        assert r.drafts[i].branch in r.remote.pulls;
        assert SameHeads(r.remote.pulls[r.drafts[i].branch], o.remote.pulls[r.drafts[i].branch]);
      }
    }
  }

  lemma NewPushIsGood(o: Run, branch: string, commit: Commit, budget: nat)
    requires Good(o) && branch !in o.remote.branches
    ensures
      var t := o.(remote := o.remote.(branches := o.remote.branches[branch := commit]), pushes := o.pushes + [Made(branch, commit)], budget := budget);
      Keeps(o, t)
  {
    var pushes := o.pushes + [Made(branch, commit)];
    var t := o.(remote := o.remote.(branches := o.remote.branches[branch := commit]), pushes := pushes, budget := budget);
    assert pushes[|o.pushes|] == Made(branch, commit);
    forall m | m in o.pushes ensures m in pushes {}
    assert PushesShown(t) by { hide DraftsShown, RemoteIsOurs; }
    assert DraftsShown(t) by {
      hide PushesShown, RemoteIsOurs;
      forall i | 0 <= i < |t.drafts| ensures t.drafts[i] in t.pushes && PullsOf(t.remote, t.drafts[i].branch) != [] {
        assert o.drafts[i] in o.pushes;
      }
    }
    assert RemoteIsOurs(t) by { hide PushesShown, DraftsShown; }
    hide PushesShown, DraftsShown, RemoteIsOurs;
  }

  lemma PushingKeeps(r: Run, branch: string, commit: Commit)
    requires Good(r)
    ensures
      var pushed := Pushed(r, branch, commit);
      && Keeps(r, pushed.run) && pushed.run.ledger == r.ledger
      && (pushed.result.Ok? ==> branch in pushed.run.remote.branches && pushed.run.remote.branches[branch] == commit)
  {
    ObservedKeeps(r);
    var o := Observed(r);
    KeptIsGood(r, o);
    hide Observed, Good, Keeps;
    if branch !in o.remote.branches && o.budget > 0 {
      NewPushIsGood(o, branch, commit, o.budget - 1);
      KeepsCompose(r, o, Pushed(r, branch, commit).run);
    }
  }

  lemma CreatingKeeps(r: Run, branch: string, base: string)
    requires Good(r) && PullsOf(r.remote, branch) == []
    ensures Keeps(r, DraftCreated(r, branch, base).run) && DraftCreated(r, branch, base).run.ledger == r.ledger
  {
    KeepsItself(r);
    if r.budget > 0 && branch in r.remote.branches {
      NewDraftIsGood(r, branch, base, DraftCreated(r, branch, base).run);
    }
  }

  lemma NewDraftIsGood(r: Run, branch: string, base: string, t: Run)
    requires Good(r) && branch in r.remote.branches && PullsOf(r.remote, branch) == [] && t == DraftCreated(r, branch, base).run && r.budget > 0
    ensures Keeps(r, t)
  {
    var made := Made(branch, r.remote.branches[branch]);
    assert t.drafts == r.drafts + [made] && t.drafts[|r.drafts|] == made;
    assert [] + [Pull(Open, true, made.commit, base)] == [Pull(Open, true, made.commit, base)];
    assert t.remote.pulls == r.remote.pulls[branch := [Pull(Open, true, made.commit, base)]] && t.remote.branches == r.remote.branches;
    forall m | m in r.drafts ensures m in t.drafts {}
    assert PushesShown(t) by { hide DraftsShown, RemoteIsOurs, DraftCreated; }
    assert made in r.pushes by { hide PushesShown, DraftsShown; }
    assert DraftsShown(t) by {
      hide PushesShown, RemoteIsOurs, DraftCreated;
      forall i | 0 <= i < |r.drafts| ensures r.drafts[i].branch != branch {
        assert PullsOf(r.remote, r.drafts[i].branch) != [];
      }
    }
    assert RemoteIsOurs(t) by { hide PushesShown, DraftsShown, DraftCreated; }
    hide PushesShown, DraftsShown, RemoteIsOurs;
  }

  lemma DraftingKeeps(r: Run, branch: string, commit: Commit, base: string)
    requires Good(r)
    ensures Keeps(r, Drafting(r, branch, commit, base).run) && Drafting(r, branch, commit, base).run.ledger == r.ledger
  {
    ObservedKeeps(r);
    var o := Observed(r);
    hide Good, Observed, Keeps;
    KeptIsGood(r, o);
    var found := FoundPull(o.remote, branch, commit, base);
    if found == Ok(false) {
      CreatingKeeps(o, branch, base);
      var created := DraftCreated(o, branch, base);
      KeepsCompose(r, o, created.run);
      KeptIsGood(o, created.run);
      ObservedKeeps(created.run);
      KeepsCompose(r, created.run, Observed(created.run));
    }
  }

  lemma KeptIsGood(r: Run, t: Run)
    requires Keeps(r, t)
    ensures Good(t)
  {}

  lemma PublishingKeeps(r: Run, job: string, e: Evidence, base: string)
    requires Good(r)
    ensures Keeps(r, Published(r, job, e, base).run) && Published(r, job, e, base).run.ledger == r.ledger
  {
    hide Good, Observed, Keeps, Pushed, Drafting, Unpublishable;
    assert Keeps(r, r) by { KeepsItself(r); }
    ObservedKeeps(r);
    var o := Observed(r);
    KeptIsGood(r, o);
    ObservedKeeps(o);
    var later := Observed(o);
    KeepsCompose(r, o, later);
    KeptIsGood(o, later);
    var commit := Candidate(o.remote.main, job, e.time, e.message);
    PushingKeeps(later, e.branch, commit);
    var pushed := Pushed(later, e.branch, commit);
    KeepsCompose(r, later, pushed.run);
    KeptIsGood(later, pushed.run);
    DraftingKeeps(pushed.run, e.branch, commit, base);
    KeepsCompose(r, pushed.run, Drafting(pushed.run, e.branch, commit, base).run);
  }

  lemma KeepsItself(r: Run)
    requires Good(r)
    ensures Keeps(r, r)
  {}

  lemma SavingKeeps(r: Run, t: Run, ledger: map<string, Entry>)
    requires Keeps(r, t)
    ensures Keeps(r, SavedLedger(t, ledger).run)
  {}

  lemma JobKeeps(r: Run, job: string, evidence: map<string, Evidence>, base: string)
    requires Good(r)
    ensures Keeps(r, JobDone(r, job, evidence, base).run)
  {
    hide Good, Observed, Keeps, Published, SavedLedger;
    KeepsItself(r);
    ObservedKeeps(r);
    if job in evidence && job !in r.ledger && evidence[job].passed {
      PublishingKeeps(r, job, evidence[job], base);
      var published := Published(r, job, evidence[job], base);
      if published.result.Ok? {
        SavingKeeps(r, published.run, published.run.ledger[job := published.result.value]);
      } else {
        SavingKeeps(r, published.run, published.run.ledger[job := PathDrift(evidence[job].gate)]);
      }
    }
  }

  /** The branch and commit of every drafted entry were pushed here and got their draft here. */
  predicate LedgerShown(r: Run) {
    forall job :: job in r.ledger && r.ledger[job].Drafted? ==>
      var made := Made(r.ledger[job].branch, r.ledger[job].commit);
      made in r.pushes && made in r.drafts
  }

  lemma ShownStays(r: Run, t: Run)
    requires LedgerShown(r) && Keeps(r, t) && t.ledger == r.ledger
    ensures LedgerShown(t)
  {
    hide Good;
    forall m | m in r.pushes ensures m in t.pushes {}
    forall m | m in r.drafts ensures m in t.drafts {}
  }

  lemma PublishedIsShown(r: Run, job: string, e: Evidence, base: string)
    requires Good(r)
    ensures
      var p := Published(r, job, e, base);
      p.result.Ok? && p.result.value.Drafted? ==>
        var made := Made(p.result.value.branch, p.result.value.commit);
        made in p.run.pushes && made in p.run.drafts
  {
    PublishingKeeps(r, job, e, base);
    var p := Published(r, job, e, base);
    KeptIsGood(r, p.run);
    if p.result.Ok? {
      PublishedIsFound(r, job, e, base);
      var entry := p.result.value;
      hide Published, PushesShown;
      assert PullsOf(p.run.remote, entry.branch)[0] == p.run.remote.pulls[entry.branch][0];
      var i :| 0 <= i < |p.run.drafts| && p.run.drafts[i] == Made(entry.branch, entry.commit);
    }
  }

  /** Publishing succeeds only with the pull request on the remote, at the commit noted. */
  lemma PublishedIsFound(r: Run, job: string, e: Evidence, base: string)
    ensures
      var p := Published(r, job, e, base);
      p.result.Ok? ==>
        && p.result.value.Drafted? && PullsOf(p.run.remote, p.result.value.branch) != []
        && PullsOf(p.run.remote, p.result.value.branch)[0].head == p.result.value.commit
  {
    if Published(r, job, e, base).result.Ok? {
      var o := Observed(r);
      var later := Observed(o);
      var commit := Candidate(o.remote.main, job, e.time, e.message);
      hide Observed, Pushed, Drafting, Unpublishable;
      DraftedIsFound(Pushed(later, e.branch, commit).run, e.branch, commit, base);
    }
  }

  /** A draft just opened is still there when it is read back. */
  lemma DraftedIsFound(r: Run, branch: string, commit: Commit, base: string)
    ensures
      var d := Drafting(r, branch, commit, base);
      d.result.Ok? ==> PullsOf(d.run.remote, branch) != [] && PullsOf(d.run.remote, branch)[0].head == commit
  {
    var o := Observed(r);
    var created := DraftCreated(o, branch, base);
    if FoundPull(o.remote, branch, commit, base) == Ok(false) && created.result.Ok? {
      assert PullsOf(created.run.remote, branch) != [];
      PullsStay(created.run, branch);
    }
    hide Observed, DraftCreated;
  }

  lemma PullsStay(r: Run, branch: string)
    requires PullsOf(r.remote, branch) != []
    ensures PullsOf(Observed(r).remote, branch) != []
  {
    if r.others != [] && Permitted(r.remote, r.others[0]) {
      assert SameHeads(r.remote.pulls[branch], r.others[0].pulls[branch]);
    }
  }

  lemma JobIsShown(r: Run, job: string, evidence: map<string, Evidence>, base: string)
    requires Good(r) && LedgerShown(r)
    ensures LedgerShown(JobDone(r, job, evidence, base).run)
  {
    hide Good, Observed, Keeps, Published;
    ObservedKeeps(r);
    ShownStays(r, Observed(r));
    if job in evidence && job !in r.ledger && evidence[job].passed {
      PublishingKeeps(r, job, evidence[job], base);
      ShownStays(r, Published(r, job, evidence[job], base).run);
      PublishedIsShown(r, job, evidence[job], base);
    }
  }

  lemma {:induction false} JobsKeep(r: Run, jobs: seq<string>, evidence: map<string, Evidence>, base: string)
    requires Good(r) && LedgerShown(r)
    ensures Keeps(r, JobsDone(r, jobs, evidence, base).run) && LedgerShown(JobsDone(r, jobs, evidence, base).run)
    decreases |jobs|
  {
    hide Good, Keeps, JobDone, LedgerShown;
    KeepsItself(r);
    if jobs != [] {
      JobKeeps(r, jobs[0], evidence, base);
      JobIsShown(r, jobs[0], evidence, base);
      var done := JobDone(r, jobs[0], evidence, base);
      if done.result.Ok? {
        KeptIsGood(r, done.run);
        JobsKeep(done.run, jobs[1..], evidence, base);
        KeepsCompose(r, done.run, JobsDone(done.run, jobs[1..], evidence, base).run);
      }
    }
  }

  // ---- any number of passes ----

  datatype Session = Session(jobs: seq<string>, others: seq<Remote>, budget: nat)

  function AfterSessions(r: Run, sessions: seq<Session>, evidence: map<string, Evidence>, base: string): Run
    decreases |sessions|
  {
    if sessions == [] then r
    else
      var s := sessions[0];
      AfterSessions(RanOnce(r.(others := s.others, budget := s.budget), s.jobs, evidence, base).run, sessions[1..], evidence, base)
  }

  lemma {:induction false} SessionsKeep(r: Run, sessions: seq<Session>, evidence: map<string, Evidence>, base: string)
    requires Good(r) && LedgerShown(r)
    ensures Good(AfterSessions(r, sessions, evidence, base)) && LedgerShown(AfterSessions(r, sessions, evidence, base))
    decreases |sessions|
  {
    if sessions != [] {
      var s := sessions[0];
      var start := r.(others := s.others, budget := s.budget);
      assert Good(start) && LedgerShown(start);
      hide Good, LedgerShown, JobsDone, NewFirst;
      JobsKeep(start, NewFirst(s.jobs, start.ledger), evidence, base);
      var next := RanOnce(start, s.jobs, evidence, base).run;
      KeptIsGood(start, next);
      SessionsKeep(next, sessions[1..], evidence, base);
    }
  }

  /**
   Over any passes, dying anywhere, with the product base moving at will: each branch receives at most
   one push and at most one draft pull request, the pull request is of the pushed commit, and every
   drafted entry of the ledger is of a branch and commit pushed and drafted here.
   */
  lemma OnePullPerBranch(main: Commit, sessions: seq<Session>, evidence: map<string, Evidence>, base: string)
    ensures
      var t := AfterSessions(Run(map[], Remote(main, map[], map[]), [], [], [], 0), sessions, evidence, base);
      && (forall i, j :: 0 <= i < j < |t.pushes| ==> t.pushes[i].branch != t.pushes[j].branch)
      && (forall i, j :: 0 <= i < j < |t.drafts| ==> t.drafts[i].branch != t.drafts[j].branch)
      && (forall i :: 0 <= i < |t.drafts| ==> t.drafts[i] in t.pushes)
      && (forall job :: job in t.ledger && t.ledger[job].Drafted? ==>
        && Made(t.ledger[job].branch, t.ledger[job].commit) in t.pushes
        && Made(t.ledger[job].branch, t.ledger[job].commit) in t.drafts)
  {
    var r := Run(map[], Remote(main, map[], map[]), [], [], [], 0);
    assert Good(r) && LedgerShown(r);
    hide AfterSessions;
    SessionsKeep(r, sessions, evidence, base);
  }

  // ---- interrupted publication ----

  /**
   Once the branch exists, publication pushes nothing, however the base and the pull requests move meanwhile;
   and when the branch is not the candidate on the base then read, in particular when it was built on an
   older base, publication fails and opens nothing.
   */
  lemma ChangedBaseFailsClosed(r: Run, job: string, e: Evidence, base: string)
    requires e.branch in r.remote.branches
    ensures
      var p := Published(r, job, e, base);
      && p.run.pushes == r.pushes && p.run.remote.branches == r.remote.branches
      && (r.remote.branches[e.branch] != Candidate(Observed(r).remote.main, job, e.time, e.message) ==>
            p.result.Err? && p.run.drafts == r.drafts)
  {
    ObservingKeepsBranches(r);
    var o := Observed(r);
    ObservingKeepsBranches(o);
    var later := Observed(o);
    var commit := Candidate(o.remote.main, job, e.time, e.message);
    ExistingBranchIsNotPushed(later, e.branch, commit);
    DraftingKeepsBranches(Pushed(later, e.branch, commit).run, e.branch, commit, base);
    hide Observed, Pushed, Drafting, Unpublishable;
  }

  lemma ObservingKeepsBranches(r: Run)
    ensures Observed(r).remote.branches == r.remote.branches && Observed(r).pushes == r.pushes && Observed(r).drafts == r.drafts
  {}

  lemma ExistingBranchIsNotPushed(r: Run, branch: string, commit: Commit)
    requires branch in r.remote.branches
    ensures
      var pushed := Pushed(r, branch, commit);
      && pushed.run.pushes == r.pushes && pushed.run.drafts == r.drafts && pushed.run.remote.branches == r.remote.branches
      && (pushed.result.Err? <==> r.remote.branches[branch] != commit)
  {}

  lemma DraftingKeepsBranches(r: Run, branch: string, commit: Commit, base: string)
    ensures Drafting(r, branch, commit, base).run.pushes == r.pushes
    ensures Drafting(r, branch, commit, base).run.remote.branches == r.remote.branches
  {
    hide FoundPull;
  }

  /** The evidence allows publication on the present base. */
  predicate Ready(r: Run, e: Evidence) {
    r.others == [] && e.valid && e.admitted && Unpublishable(e, r.remote.main).None?
  }

  /** The pull request of a branch, if any, is an open draft at this commit. */
  predicate PullFits(r: Run, branch: string, commit: Commit, base: string) {
    PullsOf(r.remote, branch) in {[], [Pull(Open, true, commit, base)]}
  }

  /**
   While the base stays, a publication that died after its push, or after its pull request, is finished
   by the next one: with the same commit, nothing pushed or opened again, and the entry it would have had.
   */
  lemma InterruptedPublicationIsFinished(r: Run, job: string, e: Evidence, base: string)
    requires Ready(r, e) && r.budget >= 2
    requires
      var commit := Candidate(r.remote.main, job, e.time, e.message);
      && (e.branch in r.remote.branches ==> r.remote.branches[e.branch] == commit)
      && (e.branch !in r.remote.branches ==> PullsOf(r.remote, e.branch) == [])
      && PullFits(r, e.branch, commit, base)
    ensures
      var commit := Candidate(r.remote.main, job, e.time, e.message);
      var p := Published(r, job, e, base);
      && p.result == Ok(Drafted(e.gate, e.branch, commit))
      && p.run.pushes == r.pushes + (if e.branch in r.remote.branches then [] else [Made(e.branch, commit)])
      && p.run.drafts == r.drafts + (if PullsOf(r.remote, e.branch) == [] then [Made(e.branch, commit)] else [])
      && p.run.remote.branches == r.remote.branches[e.branch := commit]
  {
    var commit := Candidate(r.remote.main, job, e.time, e.message);
    hide Unpublishable;
    var pushed := Pushed(r, e.branch, commit);
    assert pushed.run.remote.branches == r.remote.branches[e.branch := commit];
    assert pushed.run.pushes == r.pushes + (if e.branch in r.remote.branches then [] else [Made(e.branch, commit)]);
    assert PullsOf(pushed.run.remote, e.branch) == PullsOf(r.remote, e.branch);
    hide Pushed;
    DraftIsFinished(pushed.run, e.branch, commit, base);
    hide Drafting;
    assert Published(r, job, e, base).run == Drafting(pushed.run, e.branch, commit, base).run;
  }

  lemma DraftIsFinished(r: Run, branch: string, commit: Commit, base: string)
    requires r.others == [] && r.budget >= 1 && branch in r.remote.branches && r.remote.branches[branch] == commit
    requires PullFits(r, branch, commit, base)
    ensures
      var d := Drafting(r, branch, commit, base);
      && d.result.Ok? && d.run.pushes == r.pushes && d.run.remote.branches == r.remote.branches
      && d.run.drafts == r.drafts + (if PullsOf(r.remote, branch) == [] then [Made(branch, commit)] else [])
  {}

  // ---- the order of a pass ----

  lemma {:induction false} WhereKeeps(jobs: seq<string>, ledger: map<string, Entry>, known: bool)
    ensures forall job :: job in Where(jobs, ledger, known) <==> job in jobs && (job in ledger) == known
    ensures forall job :: multiset(Where(jobs, ledger, known))[job] == if (job in ledger) == known then multiset(jobs)[job] else 0
  {
    if jobs != [] {
      WhereKeeps(jobs[1..], ledger, known);
      assert jobs == [jobs[0]] + jobs[1..];
      if (jobs[0] in ledger) == known {
        assert Where(jobs, ledger, known) == [jobs[0]] + Where(jobs[1..], ledger, known);
      } else {
        assert Where(jobs, ledger, known) == Where(jobs[1..], ledger, known);
      }
    }
  }

  lemma EveryJobOnce(jobs: seq<string>, ledger: map<string, Entry>)
    ensures multiset(NewFirst(jobs, ledger)) == multiset(jobs)
  {
    WhereKeeps(jobs, ledger, false);
    WhereKeeps(jobs, ledger, true);
    hide Where;
    var news, drafted := Where(jobs, ledger, false), Where(jobs, ledger, true);
    assert multiset(news + drafted) == multiset(news) + multiset(drafted);
    forall job ensures multiset(news + drafted)[job] == multiset(jobs)[job] {
      assert multiset(news)[job] + multiset(drafted)[job] == multiset(jobs)[job];
    }
  }

  lemma PlacedByLedger(jobs: seq<string>, ledger: map<string, Entry>, k: int)
    requires 0 <= k < |NewFirst(jobs, ledger)|
    ensures NewFirst(jobs, ledger)[k] in ledger <==> k >= |Where(jobs, ledger, false)|
  {
    WhereKeeps(jobs, ledger, false);
    WhereKeeps(jobs, ledger, true);
    hide Where;
    var news, drafted := Where(jobs, ledger, false), Where(jobs, ledger, true);
    if k < |news| {
      assert news[k] in news;
    } else {
      assert drafted[k - |news|] in drafted;
    }
  }

  /** A pass takes every listed job once, all new ones before any drafted one. */
  lemma NewJobsComeFirst(jobs: seq<string>, ledger: map<string, Entry>)
    ensures multiset(NewFirst(jobs, ledger)) == multiset(jobs)
    ensures forall i, j :: 0 <= i < j < |NewFirst(jobs, ledger)| && NewFirst(jobs, ledger)[j] !in ledger ==> NewFirst(jobs, ledger)[i] !in ledger
  {
    hide NewFirst;
    EveryJobOnce(jobs, ledger);
    forall i, j | 0 <= i < j < |NewFirst(jobs, ledger)| && NewFirst(jobs, ledger)[j] !in ledger
      ensures NewFirst(jobs, ledger)[i] !in ledger
    {
      PlacedByLedger(jobs, ledger, i);
      PlacedByLedger(jobs, ledger, j);
    }
  }
}

/** What every completion pass keeps, wherever it dies and whatever others do to the pull requests meanwhile. */
module CompletionSafety {
  import opened Outcomes
  import opened CheckFold
  import opened Completion

  // ---- the invariant ----

  /** What a verification found to be true when it was made. */
  predicate Witnesses(v: Verification, head: Commit, how: Method) {
    IsAncestor(v.mergeCommit, v.defaultHead) && v.keepsHead == IsAncestor(head, v.defaultHead) && (how == Merge ==> v.keepsHead)
  }

  predicate GoodEntry(entry: Entry, e: Evidence) {
    entry.Entry? ==>
      && entry.pr == e.pr && entry.head == e.head && e.authority == AutoMerge
      && (entry.verification.Some? ==> Witnesses(entry.verification.value, entry.head, entry.how))
      && (entry.status in {Verified, CleanedUp, MergedStatus} ==> entry.verification.Some?)
  }

  predicate GoodLedger(ledger: map<string, Entry>, evidence: map<string, Evidence>) {
    forall job :: job in ledger && ledger[job].Entry? ==> job in evidence && GoodEntry(ledger[job], evidence[job])
  }

  ghost predicate IsPublished(a: Acceptance, evidence: map<string, Evidence>) {
    exists job :: job in evidence && evidence[job].pr == a.pr && evidence[job].head == a.head && evidence[job].authority == AutoMerge
  }

  /** Every accepted merge is of a published head, and its pull request is merged; no pull request was merged twice. */
  ghost predicate GoodAcceptances(r: Run, evidence: map<string, Evidence>) {
    && (forall i :: 0 <= i < |r.accepted| ==>
      && IsPublished(r.accepted[i], evidence)
      && r.accepted[i].pr in r.github.prs && r.github.prs[r.accepted[i].pr].state.MergedAs?)
    && (forall i, j :: 0 <= i < j < |r.accepted| ==> r.accepted[i].pr != r.accepted[j].pr)
  }

  /** The default branch headed this commit in some state of GitHub seen in the run. */
  predicate WasTrunk(r: Run, commit: Commit) { exists i :: 0 <= i < |r.seen| && r.seen[i].trunk == commit }

  /** A recorded verification names the commit GitHub merged the pull request as, and a commit its default branch headed. */
  predicate Proven(r: Run, entry: Entry) {
    entry.Entry? && entry.verification.Some? ==>
      && entry.pr in r.github.prs && r.github.prs[entry.pr].state == MergedAs(entry.verification.value.mergeCommit)
      && WasTrunk(r, entry.verification.value.defaultHead)
  }

  predicate Grounded(r: Run) {
    r.seen != [] && r.seen[|r.seen| - 1] == r.github && forall job :: job in r.ledger ==> Proven(r, r.ledger[job])
  }

  ghost predicate Safe(r: Run, evidence: map<string, Evidence>) {
    GoodLedger(r.ledger, evidence) && GoodAcceptances(r, evidence) && Grounded(r)
  }

  // ---- what a step may change ----

  function Rank(s: Status): nat {
    match s case Intent => 0 case Accepted => 1 case Verified => 2 case CleanedUp => 3 case MergedStatus => 4 case OtherStatus => 5
  }

  /** An entry keeps its pull request, head, merge method and checks, and its status never goes back. */
  predicate Advances(a: Entry, b: Entry) {
    if a.Escalated? then b == a
    else b.Entry? && b.pr == a.pr && b.head == a.head && b.how == a.how && b.checks == a.checks && Rank(b.status) >= Rank(a.status)
  }

  ghost predicate SameExcept(a: map<string, Entry>, b: map<string, Entry>, job: string) {
    forall k :: k != job ==> (k in a <==> k in b) && (k in a && k in b ==> a[k] == b[k])
  }

  /** Merged pull requests stay merged as they were, and further states are only added to those seen. */
  predicate Later(r: Run, t: Run) { Permitted(r.github, t.github) && r.seen <= t.seen }

  lemma ProvenStays(r: Run, t: Run, entry: Entry)
    requires Later(r, t) && Proven(r, entry)
    ensures Proven(t, entry)
  {}

  lemma GroundedLater(r: Run, t: Run)
    requires Grounded(r) && Later(r, t) && t.ledger == r.ledger && t.seen != [] && t.seen[|t.seen| - 1] == t.github
    ensures Grounded(t)
  {
    hide Proven, Later;
    forall k | k in r.ledger ensures Proven(t, r.ledger[k]) {
      ProvenStays(r, t, r.ledger[k]);
    }
  }

  ghost predicate Keeps(r: Run, t: Run, job: string, evidence: map<string, Evidence>) {
    && Safe(t, evidence) && Later(r, t) && r.accepted <= t.accepted && SameExcept(r.ledger, t.ledger, job)
    && (job in r.ledger ==> job in t.ledger && Advances(r.ledger[job], t.ledger[job]))
  }

  lemma KeepsItself(r: Run, job: string, evidence: map<string, Evidence>)
    requires Safe(r, evidence)
    ensures Keeps(r, r, job, evidence)
  {}

  lemma KeepsCompose(a: Run, b: Run, c: Run, job: string, evidence: map<string, Evidence>)
    requires Keeps(a, b, job, evidence) && Keeps(b, c, job, evidence)
    ensures Keeps(a, c, job, evidence)
  {
    hide Safe;
  }

  lemma ObservedKeeps(r: Run, job: string, evidence: map<string, Evidence>)
    requires Safe(r, evidence)
    ensures Keeps(r, Observed(r), job, evidence) && Observed(r).ledger == r.ledger
  {
    GroundedLater(r, Observed(r));
    hide GoodLedger, IsPublished, Proven;
  }

  lemma UndraftingKeeps(o: Run, number: nat, job: string, evidence: map<string, Evidence>)
    requires Safe(o, evidence)
    ensures
      number in o.github.prs ==>
        var github := o.github.(prs := o.github.prs[number := o.github.prs[number].(draft := false)]);
        Keeps(o, o.(github := github, seen := o.seen + [github]), job, evidence)
  {
    KeepsItself(o, job, evidence);
    if number in o.github.prs {
      var github := o.github.(prs := o.github.prs[number := o.github.prs[number].(draft := false)]);
      GroundedLater(o, o.(github := github, seen := o.seen + [github]));
    }
    hide GoodLedger, IsPublished, Proven;
  }

  lemma ReadyKeeps(r: Run, number: nat, job: string, evidence: map<string, Evidence>)
    requires Safe(r, evidence)
    ensures Keeps(r, MarkedReady(r, number), job, evidence) && MarkedReady(r, number).ledger == r.ledger
  {
    ObservedKeeps(r, job, evidence);
    var o := Observed(r);
    KeptIsSafe(r, o, job, evidence);
    hide GoodLedger, IsPublished, Observed, Proven, Keeps;
    UndraftingKeeps(o, number, job, evidence);
    KeepsCompose(r, o, MarkedReady(r, number), job, evidence);
  }

  lemma ChecksKeep(r: Run, head: Commit, required: seq<string>, job: string, evidence: map<string, Evidence>)
    requires Safe(r, evidence)
    ensures Keeps(r, ReadChecks(r, head, required).run, job, evidence) && ReadChecks(r, head, required).run.ledger == r.ledger
  {
    ObservedKeeps(r, job, evidence);
    hide Safe, Verdict, Observed;
  }

  lemma EligibilityKeeps(r: Run, e: Evidence, required: seq<string>, base: string, job: string, evidence: map<string, Evidence>)
    requires Safe(r, evidence)
    ensures Keeps(r, Eligibility(r, e, required, base).run, job, evidence) && Eligibility(r, e, required, base).run.ledger == r.ledger
  {
    ObservedKeeps(r, job, evidence);
    hide Safe, Observed, Ineligible, Keeps, ReadChecks;
    var first := ReadEligible(r, e.pr, e, base);
    if first.result.Ok? {
      assert Safe(first.run, evidence) by { KeptIsSafe(r, first.run, job, evidence); }
      ChecksKeep(first.run, e.head, required, job, evidence);
      var checks := ReadChecks(first.run, e.head, required);
      KeepsCompose(r, first.run, checks.run, job, evidence);
      if checks.result.Ok? {
        assert Safe(checks.run, evidence) by { KeptIsSafe(r, checks.run, job, evidence); }
        ObservedKeeps(checks.run, job, evidence);
        KeepsCompose(r, checks.run, Observed(checks.run), job, evidence);
      }
    }
  }

  lemma KeptIsSafe(r: Run, t: Run, job: string, evidence: map<string, Evidence>)
    requires Keeps(r, t, job, evidence)
    ensures Safe(t, evidence)
  {}

  lemma KeptIsProven(r: Run, t: Run, job: string, entry: Entry, evidence: map<string, Evidence>)
    requires Keeps(r, t, job, evidence) && Proven(r, entry)
    ensures Proven(t, entry)
  {
    hide Safe;
    ProvenStays(r, t, entry);
  }

  lemma VerifyingKeeps(r: Run, number: nat, head: Commit, how: Method, job: string, evidence: map<string, Evidence>)
    requires Safe(r, evidence)
    ensures
      var v := VerifiedMerge(r, number, head, how);
      && Keeps(r, v.run, job, evidence) && v.run.ledger == r.ledger
      && (v.result.Ok? ==>
        && Witnesses(v.result.value, head, how) && WasTrunk(v.run, v.result.value.defaultHead)
        && number in v.run.github.prs && v.run.github.prs[number].state == MergedAs(v.result.value.mergeCommit))
  {
    hide Safe, Observed, IsAncestor, Keeps;
    ObservedKeeps(r, job, evidence);
    KeptIsSafe(r, Observed(r), job, evidence);
    ObservedKeeps(Observed(r), job, evidence);
    FetchedIsLogged(Observed(r), Observed(Observed(r)), job, evidence);
    KeepsCompose(r, Observed(r), Observed(Observed(r)), job, evidence);
  }

  lemma FetchedIsLogged(r: Run, t: Run, job: string, evidence: map<string, Evidence>)
    requires Safe(r, evidence) && Keeps(r, t, job, evidence)
    ensures WasTrunk(t, r.github.trunk)
  {
    hide GoodLedger, GoodAcceptances, Permitted;
  }

  lemma SavingKeeps(r: Run, job: string, entry: Entry, evidence: map<string, Evidence>)
    requires Safe(r, evidence) && job in evidence && GoodEntry(entry, evidence[job]) && Proven(r, entry)
    requires job in r.ledger ==> Advances(r.ledger[job], entry)
    ensures
      var saved := SavedEntry(r, job, entry);
      && Keeps(r, saved.run, job, evidence)
      && (saved.result.Ok? ==> saved.run.ledger == r.ledger[job := entry])
  {
    hide IsPublished, Witnesses;
  }

  /** A merge is accepted only for an open pull request at the published head, so never twice. */
  lemma MergingKeeps(r: Run, job: string, how: Method, evidence: map<string, Evidence>)
    requires Safe(r, evidence) && job in evidence && evidence[job].authority == AutoMerge
    ensures
      var e := evidence[job];
      Keeps(r, CalledMerge(r, e.pr, e.head, how).run, job, evidence) && CalledMerge(r, e.pr, e.head, how).run.ledger == r.ledger
  {
    var e := evidence[job];
    KeepsItself(r, job, evidence);
    ObservedKeeps(r, job, evidence);
    var o := Observed(r).(budget := if r.budget > 0 then r.budget - 1 else 0);
    assert Keeps(r, o, job, evidence) by { hide Observed, Permitted, GoodLedger, IsPublished, Proven, SameExcept; }
    KeptIsSafe(r, o, job, evidence);
    hide Safe, Keeps, Observed;
    if r.budget > 0 && Accepts(o.github, e.pr, e.head) {
      AcceptingKeeps(o, job, how, evidence);
      KeepsCompose(r, o, CalledMerge(r, e.pr, e.head, how).run, job, evidence);
    }
  }

  lemma AcceptingKeeps(o: Run, job: string, how: Method, evidence: map<string, Evidence>)
    requires Safe(o, evidence) && job in evidence && evidence[job].authority == AutoMerge
    requires Accepts(o.github, evidence[job].pr, evidence[job].head)
    ensures
      var e, github := evidence[job], Merged(o.github, evidence[job].pr, how);
      Keeps(o, o.(github := github, seen := o.seen + [github], accepted := o.accepted + [Acceptance(e.pr, e.head, |o.seen|)]), job, evidence)
  {
    var e, github := evidence[job], Merged(o.github, evidence[job].pr, how);
    var t := o.(github := github, seen := o.seen + [github], accepted := o.accepted + [Acceptance(e.pr, e.head, |o.seen|)]);
    KeepsItself(o, job, evidence);
    assert IsPublished(Acceptance(e.pr, e.head, |o.seen|), evidence);
    hide IsPublished, GoodLedger, MergeCommit, SameExcept;
    assert GoodAcceptances(t, evidence) by { hide Proven; }
    hide GoodAcceptances;
    assert Later(o, t);
    assert Grounded(t) by {
      forall k | k in o.ledger ensures Proven(t, o.ledger[k]) { ProvenStays(o, t, o.ledger[k]); }
    }
  }

  // ---- jobs ----

  lemma AcceptedKeeps(r: Run, job: string, intent: Entry, plan: Plan, evidence: map<string, Evidence>)
    requires Safe(r, evidence) && job in evidence && intent.Entry? && intent.status == Intent && GoodEntry(intent, evidence[job])
    requires job in r.ledger && r.ledger[job] == intent
    ensures
      var after := AfterAcceptance(r, job, intent, plan);
      && Keeps(r, after.run, job, evidence)
      && (after.result.Ok? ==>
        && GoodEntry(after.result.value, evidence[job]) && Proven(after.run, after.result.value)
        && after.result.value.Entry? && after.result.value.status == MergedStatus
        && job in after.run.ledger && Advances(after.run.ledger[job], after.result.value))
  {
    assert Proven(r, intent);
    hide Safe, Keeps, VerifiedMerge, SavedEntry, Witnesses;
    SavingKeeps(r, job, intent.(status := Accepted), evidence);
    var noted := SavedEntry(r, job, intent.(status := Accepted));
    if noted.result.Ok? {
      KeptIsSafe(r, noted.run, job, evidence);
      VerifyingKeeps(noted.run, intent.pr, intent.head, intent.how, job, evidence);
      var verified := VerifiedMerge(noted.run, intent.pr, intent.head, intent.how);
      KeepsCompose(r, noted.run, verified.run, job, evidence);
      if verified.result.Ok? {
        VerifiedKeeps(r, verified.run, job, intent, verified.result.value, plan, evidence);
      }
    }
  }

  lemma VerifiedKeeps(r: Run, t: Run, job: string, intent: Entry, v: Verification, plan: Plan, evidence: map<string, Evidence>)
    requires Keeps(r, t, job, evidence) && job in evidence && intent.Entry? && GoodEntry(intent, evidence[job])
    requires job in t.ledger && t.ledger[job] == intent.(status := Accepted) && Witnesses(v, intent.head, intent.how)
    requires Proven(t, intent.(verification := Some(v)))
    ensures
      var entry := intent.(status := Verified, verification := Some(v));
      var saved := SavedEntry(t, job, entry);
      var cleaned := SavedEntry(saved.run, job, entry.(status := CleanedUp, cleaned := true));
      && Keeps(r, saved.run, job, evidence)
      && (saved.result.Ok? ==> Keeps(r, cleaned.run, job, evidence))
      && (saved.result.Ok? && cleaned.result.Ok? ==>
        Proven(cleaned.run, entry.(status := MergedStatus, cleaned := true)) &&
        job in cleaned.run.ledger && Advances(cleaned.run.ledger[job], entry.(status := MergedStatus, cleaned := true)))
      && GoodEntry(entry.(status := MergedStatus, cleaned := true), evidence[job])
  {
    hide Safe, Keeps, SavedEntry, Witnesses;
    KeptIsSafe(r, t, job, evidence);
    var entry := intent.(status := Verified, verification := Some(v));
    SavingKeeps(t, job, entry, evidence);
    var saved := SavedEntry(t, job, entry);
    KeepsCompose(r, t, saved.run, job, evidence);
    if saved.result.Ok? {
      KeptIsSafe(r, saved.run, job, evidence);
      var next := entry.(status := CleanedUp, cleaned := true);
      KeptIsProven(t, saved.run, job, entry, evidence);
      SavingKeeps(saved.run, job, next, evidence);
      KeptIsProven(saved.run, SavedEntry(saved.run, job, next).run, job, next, evidence);
      KeepsCompose(r, saved.run, SavedEntry(saved.run, job, next).run, job, evidence);
    }
  }

  lemma CompletingKeeps(r: Run, job: string, plan: Plan, base: string, evidence: map<string, Evidence>)
    requires Safe(r, evidence) && job in evidence && job !in r.ledger
    ensures
      var done := CompletedJob(r, job, evidence[job], plan, base);
      && Keeps(r, done.run, job, evidence)
      && (done.result.Ok? ==>
        && GoodEntry(done.result.value, evidence[job]) && Proven(done.run, done.result.value)
        && (job in done.run.ledger ==> Advances(done.run.ledger[job], done.result.value)))
  {
    hide Safe, Keeps, MarkedReady, Eligibility, SavedEntry, CalledMerge, AfterAcceptance;
    KeepsItself(r, job, evidence);
    var e := evidence[job];
    if (plan.authority.None? || plan.authority.value == e.authority) && e.authority == AutoMerge && e.valid {
      ReadyKeeps(r, e.pr, job, evidence);
      var ready := MarkedReady(r, e.pr);
      if plan.required != [] {
        KeptIsSafe(r, ready, job, evidence);
        EligibilityKeeps(ready, e, plan.required, base, job, evidence);
        var eligible := Eligibility(ready, e, plan.required, base);
        KeepsCompose(r, ready, eligible.run, job, evidence);
        if eligible.result.Ok? {
          MergingJobKeeps(r, eligible.run, job, plan, evidence);
        }
      }
    }
  }

  lemma MergingJobKeeps(r: Run, t: Run, job: string, plan: Plan, evidence: map<string, Evidence>)
    requires Keeps(r, t, job, evidence) && job in evidence && evidence[job].authority == AutoMerge && job !in t.ledger
    ensures
      var e, intent := evidence[job], IntentOf(evidence[job], plan);
      var noted := SavedEntry(t, job, intent);
      && Keeps(r, noted.run, job, evidence)
      && (noted.result.Ok? ==>
        var merged := CalledMerge(noted.run, e.pr, e.head, plan.how);
        && Keeps(r, merged.run, job, evidence)
        && (merged.result.Ok? ==>
          var after := AfterAcceptance(merged.run, job, intent, plan);
          && Keeps(r, after.run, job, evidence)
          && (after.result.Ok? ==>
            && GoodEntry(after.result.value, evidence[job]) && Proven(after.run, after.result.value)
            && (job in after.run.ledger ==> Advances(after.run.ledger[job], after.result.value)))))
  {
    hide Safe, Keeps, SavedEntry, CalledMerge, AfterAcceptance;
    var e, intent := evidence[job], IntentOf(evidence[job], plan);
    KeptIsSafe(r, t, job, evidence);
    SavingKeeps(t, job, intent, evidence);
    var noted := SavedEntry(t, job, intent);
    KeepsCompose(r, t, noted.run, job, evidence);
    if noted.result.Ok? {
      KeptIsSafe(r, noted.run, job, evidence);
      MergingKeeps(noted.run, job, plan.how, evidence);
      var merged := CalledMerge(noted.run, e.pr, e.head, plan.how);
      KeepsCompose(r, noted.run, merged.run, job, evidence);
      if merged.result.Ok? {
        KeptIsSafe(r, merged.run, job, evidence);
        AcceptedKeeps(merged.run, job, intent, plan, evidence);
        KeepsCompose(r, merged.run, AfterAcceptance(merged.run, job, intent, plan).run, job, evidence);
      }
    }
  }

  lemma RecoveringIntentKeeps(r: Run, job: string, existing: Entry, base: string, evidence: map<string, Evidence>)
    requires Safe(r, evidence) && job in evidence && existing.Entry? && existing.status == Intent && GoodEntry(existing, evidence[job])
    requires job in r.ledger && r.ledger[job] == existing
    ensures
      var recovered := RecoveredIntent(r, job, evidence[job], existing, base);
      && Keeps(r, recovered.run, job, evidence)
      && job in recovered.run.ledger && Advances(recovered.run.ledger[job], existing.(status := MergedStatus))
  {
    hide Safe, Keeps, SavedEntry, CalledMerge, ReadChecks, Observed, Ineligible, GoodEntry;
    var e := evidence[job];
    ObservedKeeps(r, job, evidence);
    var o := Observed(r);
    KeptIsSafe(r, o, job, evidence);
    if existing.pr in o.github.prs && o.github.prs[existing.pr].state.Open? && Ineligible(o.github.prs[existing.pr], e, base).None? {
      ChecksKeep(o, existing.head, existing.checks, job, evidence);
      var checks := ReadChecks(o, existing.head, existing.checks);
      KeepsCompose(r, o, checks.run, job, evidence);
      if checks.result.Ok? {
        PreparedMergeKeeps(r, checks.run, job, existing, evidence);
      }
    }
  }

  lemma PreparedMergeKeeps(r: Run, t: Run, job: string, existing: Entry, evidence: map<string, Evidence>)
    requires Keeps(r, t, job, evidence) && job in evidence && existing.Entry? && existing.status == Intent && GoodEntry(existing, evidence[job])
    requires job in r.ledger && r.ledger[job] == existing && t.ledger == r.ledger
    ensures
      var merged := CalledMerge(t, existing.pr, existing.head, existing.how);
      && Keeps(r, merged.run, job, evidence) && merged.run.ledger == r.ledger
      && (merged.result.Ok? ==>
        var saved := SavedEntry(merged.run, job, existing.(status := Accepted));
        && Keeps(r, saved.run, job, evidence)
        && job in saved.run.ledger && Advances(saved.run.ledger[job], existing.(status := MergedStatus)))
  {
    KeptIsSafe(r, t, job, evidence);
    assert Proven(t, existing);
    hide Safe, Keeps, SavedEntry, CalledMerge, Witnesses;
    MergingKeeps(t, job, existing.how, evidence);
    var merged := CalledMerge(t, existing.pr, existing.head, existing.how);
    KeepsCompose(r, t, merged.run, job, evidence);
    if merged.result.Ok? {
      KeptIsSafe(r, merged.run, job, evidence);
      KeptIsProven(t, merged.run, job, existing, evidence);
      SavingKeeps(merged.run, job, existing.(status := Accepted), evidence);
      KeepsCompose(r, merged.run, SavedEntry(merged.run, job, existing.(status := Accepted)).run, job, evidence);
      FailedSaveChangesNothing(merged.run, job, existing.(status := Accepted));
    }
  }

  lemma FailedSaveChangesNothing(r: Run, job: string, entry: Entry)
    ensures SavedEntry(r, job, entry).result.Err? ==> SavedEntry(r, job, entry).run == r
  {}

  lemma RecoveringMergeKeeps(r: Run, job: string, existing: Entry, plan: Plan, evidence: map<string, Evidence>)
    requires Safe(r, evidence) && job in evidence && existing.Entry? && GoodEntry(existing, evidence[job])
    requires job in r.ledger && Advances(r.ledger[job], existing.(status := MergedStatus)) && existing.status != OtherStatus
    requires Proven(r, existing)
    ensures
      var recovered := RecoveredMerge(r, existing, plan);
      && Keeps(r, recovered.run, job, evidence) && recovered.run.ledger == r.ledger
      && (recovered.result.Ok? ==>
        && recovered.result.value.Some? && GoodEntry(recovered.result.value.value, evidence[job])
        && Proven(recovered.run, recovered.result.value.value)
        && Advances(r.ledger[job], recovered.result.value.value)
        && recovered.result.value.value.Entry? && recovered.result.value.value.status == MergedStatus)
  {
    hide Safe, Keeps, VerifiedMerge, Witnesses;
    KeepsItself(r, job, evidence);
    if existing.verification.None? {
      VerifyingKeeps(r, existing.pr, existing.head, existing.how, job, evidence);
    }
  }

  lemma RecoveringKeeps(r: Run, job: string, plan: Plan, base: string, evidence: map<string, Evidence>)
    requires Safe(r, evidence) && job in evidence && job in r.ledger && r.ledger[job].Entry?
    ensures
      var recovered := RecoveredJob(r, job, evidence[job], plan, r.ledger[job], base);
      && Keeps(r, recovered.run, job, evidence)
      && (recovered.result.Ok? && recovered.result.value.None? ==> recovered.run.ledger == r.ledger)
      && (recovered.result.Ok? && recovered.result.value.Some? ==>
        && GoodEntry(recovered.result.value.value, evidence[job]) && Proven(recovered.run, recovered.result.value.value)
        && recovered.result.value.value.Entry? && recovered.result.value.value.status == MergedStatus
        && job in recovered.run.ledger && Advances(recovered.run.ledger[job], recovered.result.value.value))
  {
    var existing := r.ledger[job];
    assert GoodEntry(existing, evidence[job]) && Proven(r, existing);
    hide Safe, Keeps, VerifiedMerge, RecoveredIntent, RecoveredMerge, GoodEntry, Proven;
    KeepsItself(r, job, evidence);
    if existing.status == MergedStatus {
      VerifyingKeeps(r, existing.pr, existing.head, existing.how, job, evidence);
    } else if existing.status == OtherStatus || (existing.status == CleanedUp && (existing.released || !evidence[job].identified)) {
    } else if evidence[job].valid && existing.head == evidence[job].head {
      if existing.status == Intent {
        RecoveringIntentKeeps(r, job, existing, base, evidence);
        var recovered := RecoveredIntent(r, job, evidence[job], existing, base);
        if recovered.result.Ok? {
          KeptIsSafe(r, recovered.run, job, evidence);
          KeptIsProven(r, recovered.run, job, existing, evidence);
          RecoveringMergeKeeps(recovered.run, job, existing, plan, evidence);
          KeepsCompose(r, recovered.run, RecoveredMerge(recovered.run, existing, plan).run, job, evidence);
        }
      } else {
        RecoveringMergeKeeps(r, job, existing, plan, evidence);
      }
    }
  }

  // ---- a pass ----

  /** All jobs' entries only advance. */
  predicate AllAdvance(a: map<string, Entry>, b: map<string, Entry>) {
    forall job :: job in a ==> job in b && Advances(a[job], b[job])
  }

  lemma KeptAdvances(r: Run, t: Run, job: string, evidence: map<string, Evidence>)
    requires Keeps(r, t, job, evidence)
    ensures AllAdvance(r.ledger, t.ledger)
  {
    hide Safe;
    forall k | k in r.ledger ensures k in t.ledger && Advances(r.ledger[k], t.ledger[k]) {
      AdvancesItself(r.ledger[k]);
    }
  }

  lemma AdvancesItself(a: Entry)
    ensures Advances(a, a)
  {}

  lemma ConcludingKeeps(r: Run, memory: map<string, Entry>, job: string, terminal: Entry, plan: Plan, evidence: map<string, Evidence>)
    requires Safe(r, evidence) && job in evidence && GoodEntry(terminal, evidence[job]) && Proven(r, terminal)
    requires SameExcept(memory, r.ledger, job)
    requires job in r.ledger ==> Advances(r.ledger[job], terminal)
    ensures
      var done := Concluded(r, memory, job, terminal, plan);
      && Keeps(r, done.run, job, evidence)
      && (done.result.Ok? ==> done.run.ledger == done.result.value)
  {
    KeepsItself(r, job, evidence);
    var entry := if terminal.Entry? then terminal.(released := true) else terminal;
    assert GoodEntry(entry, evidence[job]) && Proven(r, entry) && (job in r.ledger ==> Advances(r.ledger[job], entry));
    hide GoodEntry, IsPublished, Advances, Keeps, Safe, SameExcept, Proven;
    NewLedgerKeeps(r, memory, job, entry, evidence);
  }

  lemma NewLedgerKeeps(r: Run, memory: map<string, Entry>, job: string, entry: Entry, evidence: map<string, Evidence>)
    requires Safe(r, evidence) && job in evidence && GoodEntry(entry, evidence[job]) && SameExcept(memory, r.ledger, job)
    requires Proven(r, entry)
    requires job in r.ledger ==> Advances(r.ledger[job], entry)
    ensures Keeps(r, SavedAs(r, memory[job := entry]).run, job, evidence)
  {
    KeepsItself(r, job, evidence);
    hide GoodEntry, IsPublished, Advances;
    assert GoodLedger(memory[job := entry], evidence) by { hide Proven, Permitted; }
    hide GoodLedger;
    assert Grounded(SavedAs(r, memory[job := entry]).run) by { hide Permitted; }
    hide Proven, Permitted;
  }

  lemma JobKeeps(r: Run, job: string, cfg: Config)
    requires Safe(r, cfg.evidence)
    ensures
      var done := JobDone(r, r.ledger, job, cfg);
      && Keeps(r, done.run, job, cfg.evidence)
      && (done.result.Ok? ==> done.run.ledger == done.result.value)
  {
    hide Safe, Keeps, RecoveredJob, CompletedJob, Concluded, GoodEntry, Advances, Proven;
    KeepsItself(r, job, cfg.evidence);
    if job in cfg.evidence && job in cfg.plans {
      var plan := cfg.plans[job];
      if job !in r.ledger {
        CompletingKeeps(r, job, plan, cfg.base, cfg.evidence);
        var done := CompletedJob(r, job, cfg.evidence[job], plan, cfg.base);
        if done.result.Ok? {
          JobConcludes(r, done.run, job, done.result.value, plan, cfg);
        }
      } else if r.ledger[job].Entry? {
        RecoveringKeeps(r, job, plan, cfg.base, cfg.evidence);
        var done := RecoveredJob(r, job, cfg.evidence[job], plan, r.ledger[job], cfg.base);
        if done.result.Ok? && done.result.value.Some? {
          JobConcludes(r, done.run, job, done.result.value.value, plan, cfg);
        }
      }
    }
  }

  lemma JobConcludes(r: Run, t: Run, job: string, terminal: Entry, plan: Plan, cfg: Config)
    requires Keeps(r, t, job, cfg.evidence) && job in cfg.evidence && GoodEntry(terminal, cfg.evidence[job]) && Proven(t, terminal)
    requires job in t.ledger ==> Advances(t.ledger[job], terminal)
    ensures
      var done := Concluded(t, r.ledger, job, terminal, plan);
      && Keeps(r, done.run, job, cfg.evidence)
      && (done.result.Ok? ==> done.run.ledger == done.result.value)
  {
    KeptIsSafe(r, t, job, cfg.evidence);
    assert SameExcept(r.ledger, t.ledger, job);
    hide Safe, Keeps, Concluded, GoodEntry, Advances, Proven;
    ConcludingKeeps(t, r.ledger, job, terminal, plan, cfg.evidence);
    KeepsCompose(r, t, Concluded(t, r.ledger, job, terminal, plan).run, job, cfg.evidence);
  }

  lemma AllAdvanceCompose(a: map<string, Entry>, b: map<string, Entry>, c: map<string, Entry>)
    requires AllAdvance(a, b) && AllAdvance(b, c)
    ensures AllAdvance(a, c)
  {}

  /** At every loop head the ledger file is the ledger in memory. */
  lemma {:induction false} PassKeeps(r: Run, jobs: seq<string>, cfg: Config)
    requires Safe(r, cfg.evidence)
    ensures
      var done := Pass(r, r.ledger, jobs, cfg);
      && Safe(done.run, cfg.evidence) && r.accepted <= done.run.accepted && AllAdvance(r.ledger, done.run.ledger)
      && (done.result.Ok? ==> done.run.ledger == done.result.value)
    decreases |jobs|
  {
    hide Safe, Keeps, JobDone, AllAdvance;
    assert AllAdvance(r.ledger, r.ledger) by { KeepsItself(r, "", cfg.evidence); KeptAdvances(r, r, "", cfg.evidence); }
    if jobs != [] {
      JobKeeps(r, jobs[0], cfg);
      var done := JobDone(r, r.ledger, jobs[0], cfg);
      KeptAdvances(r, done.run, jobs[0], cfg.evidence);
      KeptIsSafe(r, done.run, jobs[0], cfg.evidence);
      assert r.accepted <= done.run.accepted by { KeptGrows(r, done.run, jobs[0], cfg.evidence); }
      if done.result.Ok? {
        PassKeeps(done.run, jobs[1..], cfg);
        AllAdvanceCompose(r.ledger, done.run.ledger, Pass(done.run, done.run.ledger, jobs[1..], cfg).run.ledger);
      }
    }
  }

  lemma KeptGrows(r: Run, t: Run, job: string, evidence: map<string, Evidence>)
    requires Keeps(r, t, job, evidence)
    ensures r.accepted <= t.accepted
  {}

  // ---- any number of passes ----

  /** One scheduled pass: the jobs it finds, the plans it is configured with, how others interfere, and when it dies. */
  datatype Session = Session(jobs: seq<string>, plans: map<string, Plan>, others: seq<GitHub>, budget: nat)

  function AfterSessions(r: Run, sessions: seq<Session>, base: string, evidence: map<string, Evidence>): Run
    decreases |sessions|
  {
    if sessions == [] then r
    else
      var s := sessions[0];
      var start := r.(others := s.others, budget := s.budget);
      AfterSessions(RanOnce(start, s.jobs, Config(base, evidence, s.plans)).run, sessions[1..], base, evidence)
  }

  lemma {:induction false} SessionsKeep(r: Run, sessions: seq<Session>, base: string, evidence: map<string, Evidence>)
    requires Safe(r, evidence)
    ensures
      var t := AfterSessions(r, sessions, base, evidence);
      Safe(t, evidence) && r.accepted <= t.accepted && AllAdvance(r.ledger, t.ledger)
    decreases |sessions|
  {
    hide AllAdvance, Pass;
    if sessions == [] {
      assert AllAdvance(r.ledger, r.ledger) by { KeepsItself(r, "", evidence); KeptAdvances(r, r, "", evidence); }
    } else {
      var s := sessions[0];
      var start := r.(others := s.others, budget := s.budget);
      var cfg := Config(base, evidence, s.plans);
      assert Safe(start, evidence);
      hide Safe;
      PassKeeps(start, s.jobs, cfg);
      var next := RanOnce(start, s.jobs, cfg).run;
      SessionsKeep(next, sessions[1..], base, evidence);
      AllAdvanceCompose(r.ledger, next.ledger, AfterSessions(next, sessions[1..], base, evidence).ledger);
    }
  }

  /**
   Completion is safe over any sequence of passes, each with its own plans, dying anywhere, while others
   push, close, merge, move the default branch and change checks: no pull request has a second accepted
   merge, and every accepted merge is at a published head and stays made. A job recorded as merged has its pull request
   merged on GitHub as the very commit recorded; that commit, and for method merge the validated head too,
   is on a commit the default branch headed at some moment of the run.
   */
  lemma CompletionIsSafe(github: GitHub, sessions: seq<Session>, base: string, evidence: map<string, Evidence>)
    ensures
      var t := AfterSessions(Start(github), sessions, base, evidence);
      && (forall i, j :: 0 <= i < j < |t.accepted| ==> t.accepted[i].pr != t.accepted[j].pr)
      && (forall i :: 0 <= i < |t.accepted| ==>
        && IsPublished(t.accepted[i], evidence)
        && t.accepted[i].pr in t.github.prs && t.github.prs[t.accepted[i].pr].state.MergedAs?)
      && forall job :: job in t.ledger && t.ledger[job].Entry? && t.ledger[job].status == MergedStatus ==>
        && job in evidence && t.ledger[job].pr == evidence[job].pr && t.ledger[job].head == evidence[job].head
        && t.ledger[job].verification.Some?
        && var v := t.ledger[job].verification.value;
        && t.ledger[job].pr in t.github.prs && t.github.prs[t.ledger[job].pr].state == MergedAs(v.mergeCommit)
        && WasTrunk(t, v.defaultHead) && Witnesses(v, t.ledger[job].head, t.ledger[job].how)
  {
    var r := Start(github);
    assert Safe(r, evidence);
    hide AfterSessions, IsPublished, Witnesses, IsAncestor;
    SessionsKeep(r, sessions, base, evidence);
  }

  /** From any status a crash left, whatever happens next, the job keeps its pull request, head and merge method. */
  lemma CrashesKeepTheIntent(r: Run, sessions: seq<Session>, base: string, evidence: map<string, Evidence>, job: string)
    requires Safe(r, evidence) && job in r.ledger && r.ledger[job].Entry?
    ensures
      var after := AfterSessions(r, sessions, base, evidence).ledger;
      && job in after && after[job].Entry?
      && after[job].pr == r.ledger[job].pr && after[job].head == r.ledger[job].head && after[job].how == r.ledger[job].how
      && Rank(after[job].status) >= Rank(r.ledger[job].status)
  {
    hide Safe, AfterSessions;
    SessionsKeep(r, sessions, base, evidence);
  }

  // ---- what recovery reaches when it is left alone ----

  /** Nothing but the pull request's own state stands between this entry and its terminal record. */
  predicate Recoverable(r: Run, job: string, e: Evidence, plan: Plan, existing: Entry) {
    && r.others == [] && r.budget >= 3 && job in r.ledger && r.ledger[job] == existing
    && existing.Entry? && existing.status in {Intent, Accepted, Verified, CleanedUp} && !existing.released
    && (existing.status == Intent ==> existing.verification.None?)
    && e.valid && e.identified && existing.head == e.head && existing.pr == e.pr && e.pr in r.github.prs
    && plan.cleanable && plan.published && plan.emitted && plan.claimReleased
  }

  /** The pull request is merged, its merge commit is on the default branch, and for method merge the head is too. */
  predicate MergeStands(g: GitHub, number: nat, head: Commit, how: Method)
    requires number in g.prs
  {
    && g.prs[number].state.MergedAs? && IsAncestor(g.prs[number].state.commit, g.trunk)
    && (how == Merge ==> IsAncestor(head, g.trunk))
  }

  predicate StillMergeable(g: GitHub, e: Evidence, existing: Entry, base: string)
    requires e.pr in g.prs && existing.Entry?
  {
    && existing.status == Intent && g.prs[e.pr].state.Open? && Ineligible(g.prs[e.pr], e, base).None?
    && Verdict(if e.head in g.checks then g.checks[e.head] else [], existing.checks).None?
  }

  lemma NewMergeStands(g: GitHub, number: nat, how: Method)
    requires number in g.prs
    ensures MergeStands(Merged(g, number, how), number, g.prs[number].head, how)
  {
    var commit := MergeCommit(how, g.trunk, g.prs[number].head);
    if how == Merge {
      assert commit.parents[1] == g.prs[number].head;
    }
  }

  lemma VerifyingStands(r: Run, number: nat, head: Commit, how: Method)
    requires r.others == [] && number in r.github.prs
    ensures VerifiedMerge(r, number, head, how).run == r
    ensures VerifiedMerge(r, number, head, how).result.Ok? <==> MergeStands(r.github, number, head, how)
    ensures MergeStands(r.github, number, head, how) ==>
      VerifiedMerge(r, number, head, how).result.value == Verification(r.github.prs[number].state.commit, r.github.trunk, IsAncestor(head, r.github.trunk))
  {}

  /**
   Recovery left alone finishes exactly when the merge was verified before, stands now, or can still be
   made; it then records the same pull request, head and method as merged. For squash and rebase it does
   so whatever head was merged: `RecordAfterForeignMerge` says when the record is right.
   */
  lemma RecoveryFinishes(r: Run, job: string, e: Evidence, plan: Plan, existing: Entry, cfg: Config)
    requires Recoverable(r, job, e, plan, existing) && job in cfg.evidence && cfg.evidence[job] == e && job in cfg.plans && cfg.plans[job] == plan
    ensures
      var done := JobDone(r, r.ledger, job, cfg);
      var stands := MergeStands(r.github, e.pr, e.head, existing.how);
      && (done.result.Ok? <==> existing.verification.Some? || stands || StillMergeable(r.github, e, existing, cfg.base))
      && (done.result.Ok? ==>
        var entry := done.run.ledger[job];
        && entry.Entry? && entry.status == MergedStatus && entry.pr == e.pr && entry.head == e.head && entry.how == existing.how
        && (existing.verification.None? && stands ==>
          entry.verification == Some(Verification(r.github.prs[e.pr].state.commit, r.github.trunk, IsAncestor(e.head, r.github.trunk)))))
  {
    hide IsAncestor, Ineligible, Verdict, MergeCommit;
    VerifyingStands(r, e.pr, e.head, existing.how);
    if existing.status == Intent {
      IntentLeftAlone(r, job, e, existing, cfg.base);
    }
    hide VerifiedMerge, RecoveredIntent, MergeStands, StillMergeable;
    if existing.status == Intent && RecoveredIntent(r, job, e, existing, cfg.base).result.Ok? {
      var t := RecoveredIntent(r, job, e, existing, cfg.base).run;
      VerifyingStands(t, e.pr, e.head, existing.how);
    }
  }

  lemma IntentLeftAlone(r: Run, job: string, e: Evidence, existing: Entry, base: string)
    requires r.others == [] && r.budget >= 3 && existing.Entry? && existing.status == Intent
    requires existing.head == e.head && existing.pr == e.pr && e.pr in r.github.prs
    ensures
      var recovered := RecoveredIntent(r, job, e, existing, base);
      && (recovered.result.Ok? <==> r.github.prs[e.pr].state.MergedAs? || StillMergeable(r.github, e, existing, base))
      && (recovered.result.Ok? ==>
        && recovered.run.others == [] && recovered.run.budget >= 1 && e.pr in recovered.run.github.prs
        && (r.github.prs[e.pr].state.MergedAs? ==> recovered.run == r)
        && (!r.github.prs[e.pr].state.MergedAs? ==> MergeStands(recovered.run.github, e.pr, e.head, existing.how)))
  {
    hide IsAncestor, Verdict;
    NewMergeStands(r.github, e.pr, existing.how);
    hide MergeStands, MergeCommit;
  }

  // ---- what a recovered record says about the head that was merged ----

  /** The validated head is on the default branch, or its content was squashed or rebased onto it. */
  predicate Landed(head: Commit, merged: Commit, how: Method, trunk: Commit) {
    IsAncestor(head, trunk) || (how != Merge && merged.content == head.content)
  }

  /** A merge commit tells the head it was made from, up to its content for squash and rebase. */
  lemma MergeCommitTells(how: Method, trunk: Commit, a: Commit, b: Commit)
    ensures MergeCommit(how, trunk, a) == MergeCommit(how, trunk, b) <==> (if how == Merge then a == b else a.content == b.content)
  {
    var prefix := "squash of ";
    assert (prefix + a.content)[|prefix|..] == a.content && (prefix + b.content)[|prefix|..] == b.content;
    if how == Merge {
      assert [trunk, a][1] == a && [trunk, b][1] == b;
    }
  }

  /** A squashed or rebased commit has no ancestors but itself and those of the branch it was put on. */
  lemma SquashHidesTheHead(how: Method, trunk: Commit, merged: Commit, head: Commit)
    requires how != Merge
    ensures
      var commit := MergeCommit(how, trunk, merged);
      IsAncestor(head, commit) <==> head == commit || IsAncestor(head, trunk)
  {
    var commit := MergeCommit(how, trunk, merged);
    assert commit.parents == [trunk] && commit.parents[0] == trunk;
  }

  /**
   Others merged the pull request of a prepared intent, by any method and at any head. Recovery then records
   the validated head as merged unless the intent's method is merge and that head is no ancestor. The
   record is right exactly if the method is merge, or the head is an ancestor of the default branch, or the
   merge commit is the one this merge makes of the validated head; `keepsHead` tells only the second.
   */
  lemma RecordAfterForeignMerge(r: Run, job: string, e: Evidence, plan: Plan, existing: Entry, cfg: Config, before: GitHub, how: Method)
    requires Recoverable(r, job, e, plan, existing) && existing.status == Intent
    requires job in cfg.evidence && cfg.evidence[job] == e && job in cfg.plans && cfg.plans[job] == plan
    requires e.pr in before.prs && before.prs[e.pr].state.Open? && r.github == Merged(before, e.pr, how)
    ensures
      var done := JobDone(r, r.ledger, job, cfg);
      var merged := before.prs[e.pr].head;
      var commit := MergeCommit(how, before.trunk, merged);
      && (done.result.Ok? <==> existing.how != Merge || IsAncestor(e.head, commit))
      && (done.result.Ok? ==>
        var entry := done.run.ledger[job];
        && entry.Entry? && entry.status == MergedStatus && entry.head == e.head
        && entry.verification == Some(Verification(commit, commit, IsAncestor(e.head, commit)))
        && (Landed(e.head, merged, how, commit) <==>
            existing.how == Merge || IsAncestor(e.head, commit) || commit == MergeCommit(how, before.trunk, e.head)))
  {
    var merged := before.prs[e.pr].head;
    var commit := MergeCommit(how, before.trunk, merged);
    RecoveryFinishes(r, job, e, plan, existing, cfg);
    MergeCommitTells(how, before.trunk, merged, e.head);
    assert how == Merge && merged == e.head ==> IsAncestor(e.head, commit) by { NewMergeStands(before, e.pr, how); }
    assert IsAncestor(commit, commit);
    hide IsAncestor, MergeCommit, JobDone, Ineligible, Verdict;
  }

  /** A pull request merged by others at this head while the intent to merge another was in the ledger. */
  function Overtaken(job: string, head: Commit, merged: Commit, trunk: Commit, intended: Method, how: Method): Run {
    var pr := Pr(Open, false, merged, "branch", "main", true, Some(0), "");
    Run(map[job := Entry(Intent, 1, head, intended, ["tests"], None, false, false)],
        Merged(GitHub(map[1 := pr], trunk, map[]), 1, how), [Merged(GitHub(map[1 := pr], trunk, map[]), 1, how)], [], [], 3)
  }

  function SoundEvidence(head: Commit): Evidence { Evidence(true, AutoMerge, 1, head, "branch", true) }

  function SoundPlan(intended: Method): Plan { Plan(None, ["tests"], intended, true, true, true, true) }

  /**
   The failing inputs: for squash and rebase, every head of other content that others merged is recorded as
   a merge of the validated head, which is nowhere on the default branch; and `keepsHead` is false exactly
   as it would be had the validated head been merged.
   */
  lemma AnotherHeadIsRecorded(job: string, head: Commit, merged: Commit, trunk: Commit, intended: Method, how: Method)
    requires intended != Merge && how != Merge && merged.content != head.content
    requires !IsAncestor(head, trunk) && head != MergeCommit(how, trunk, merged) && head != MergeCommit(how, trunk, head)
    ensures
      var cfg := Config("main", map[job := SoundEvidence(head)], map[job := SoundPlan(intended)]);
      var wrong, right := Overtaken(job, head, merged, trunk, intended, how), Overtaken(job, head, head, trunk, intended, how);
      var recorded, proper := JobDone(wrong, wrong.ledger, job, cfg), JobDone(right, right.ledger, job, cfg);
      && recorded.result.Ok? && proper.result.Ok?
      && recorded.run.ledger[job].Entry? && recorded.run.ledger[job].status == MergedStatus && recorded.run.ledger[job].head == head
      && !Landed(head, merged, how, wrong.github.trunk) && Landed(head, head, how, right.github.trunk)
      && recorded.run.ledger[job].verification.Some? && !recorded.run.ledger[job].verification.value.keepsHead
      && proper.run.ledger[job].Entry? && proper.run.ledger[job].verification.Some? && !proper.run.ledger[job].verification.value.keepsHead
  {
    OvertakenRecord(job, head, merged, trunk, intended, how);
    OvertakenRecord(job, head, head, trunk, intended, how);
    SquashHidesTheHead(how, trunk, merged, head);
    SquashHidesTheHead(how, trunk, head, head);
    hide IsAncestor, MergeCommit, JobDone;
  }

  lemma OvertakenRecord(job: string, head: Commit, merged: Commit, trunk: Commit, intended: Method, how: Method)
    requires intended != Merge
    ensures
      var cfg := Config("main", map[job := SoundEvidence(head)], map[job := SoundPlan(intended)]);
      var r := Overtaken(job, head, merged, trunk, intended, how);
      var done := JobDone(r, r.ledger, job, cfg);
      var commit := MergeCommit(how, trunk, merged);
      && done.result.Ok? && r.github.trunk == commit
      && done.run.ledger[job].Entry? && done.run.ledger[job].status == MergedStatus && done.run.ledger[job].head == head
      && done.run.ledger[job].verification == Some(Verification(commit, commit, IsAncestor(head, commit)))
  {
    var cfg := Config("main", map[job := SoundEvidence(head)], map[job := SoundPlan(intended)]);
    var r := Overtaken(job, head, merged, trunk, intended, how);
    var before := GitHub(map[1 := Pr(Open, false, merged, "branch", "main", true, Some(0), "")], trunk, map[]);
    hide IsAncestor, MergeCommit, JobDone;
    RecordAfterForeignMerge(r, job, SoundEvidence(head), SoundPlan(intended), r.ledger[job], cfg, before, how);
  }
}

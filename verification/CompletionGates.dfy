/** What GitHub showed before every merge: an eligible pull request, and green required checks on the very head. */
module CompletionGates {
  import opened Outcomes
  import opened CheckFold
  import opened Completion
  import opened CompletionSafety

  // ---- what a merge needs ----

  /**
   A report on this check succeeded. Unless an untimed report fails or is pending, when the order of the list
   matters, no report on the check is newer.
   */
  ghost predicate IsGreen(checks: seq<Observation>, name: string) {
    exists k :: k in checks && About(k, name) && Succeeded(k.state)
      && ((forall o :: o in checks && About(o, name) && !Timed(o) ==> !Blocking(o.state)) ==>
          forall o :: o in checks && About(o, name) ==> Weaker(o, k))
  }

  ghost predicate GreenOn(g: GitHub, head: Commit, required: seq<string>) {
    head in g.checks && forall name :: name in required ==> IsGreen(g.checks[head], name)
  }

  /** The pull request is open at the published head and branch, on the product base, and nothing speaks against it. */
  predicate ReadyToMerge(g: GitHub, e: Evidence, base: string) {
    && e.pr in g.prs
    && var pr := g.prs[e.pr];
    && pr.state.Open? && pr.head == e.head && pr.branch == e.branch && pr.base == base
    && pr.mergeable && pr.unresolved == Some(0) && (pr.decision == "" || pr.decision == "APPROVED")
  }

  /** Among the last `n` states seen. */
  ghost predicate SeenGreen(seen: seq<GitHub>, n: nat, head: Commit, required: seq<string>) {
    exists i :: 0 <= i < |seen| && |seen| - n <= i && GreenOn(seen[i], head, required)
  }

  ghost predicate SeenReady(seen: seq<GitHub>, n: nat, e: Evidence, base: string) {
    exists i :: 0 <= i < |seen| && |seen| - n <= i && ReadyToMerge(seen[i], e, base)
  }

  lemma {:induction false} VerdictIsGreen(checks: seq<Observation>, required: seq<string>)
    requires Verdict(checks, required).None?
    ensures forall name :: name in required ==> IsGreen(checks, name)
  {
    GreenIsAllPassing(checks, required);
    forall name | name in required ensures IsGreen(checks, name) {
      KeptIsGreen(checks, name);
    }
  }

  lemma KeptIsGreen(checks: seq<Observation>, name: string)
    requires Passes(checks, name)
    ensures IsGreen(checks, name)
  {
    KeptIsRead(checks, name);
    if forall o :: o in checks && About(o, name) && !Timed(o) ==> !Blocking(o.state) {
      NewestIsKept(checks, name);
    }
    hide Kept, Weaker, Blocking;
    var k := Kept(checks, name).value;
    assert k in checks && About(k, name) && Succeeded(k.state);
  }

  lemma {:induction false} NoChecksAreRed(required: seq<string>)
    requires required != []
    ensures Verdict([], required).Some?
  {}

  lemma EligibleIsReady(g: GitHub, e: Evidence, base: string)
    requires e.pr in g.prs && Ineligible(g.prs[e.pr], e, base).None?
    ensures ReadyToMerge(g, e, base)
  {}

  // ---- what a call saw ----

  /** The state read last is the one seen last. */
  predicate Current(r: Run) { r.seen != [] && r.seen[|r.seen| - 1] == r.github }

  lemma ObservedIsCurrent(r: Run)
    requires Current(r)
    ensures Current(Observed(r)) && (Observed(r).seen == r.seen || Observed(r).seen == r.seen + [Observed(r).github])
    ensures Observed(r).accepted == r.accepted && Observed(r).ledger == r.ledger
  {}

  /** One more state seen leaves what was seen before among one more of the last. */
  lemma SeenStays(seen: seq<GitHub>, later: seq<GitHub>, n: nat, m: nat)
    requires later == seen || exists g :: later == seen + [g]
    ensures forall head, required :: SeenGreen(seen, n, head, required) ==> SeenGreen(later, n + 1, head, required)
    ensures forall e, base :: SeenReady(seen, n, e, base) ==> SeenReady(later, n + 1, e, base)
  {
    hide GreenOn, ReadyToMerge;
    forall head, required | SeenGreen(seen, n, head, required) ensures SeenGreen(later, n + 1, head, required) {
      var i :| 0 <= i < |seen| && |seen| - n <= i && GreenOn(seen[i], head, required);
      assert later[i] == seen[i];
    }
    forall e, base | SeenReady(seen, n, e, base) ensures SeenReady(later, n + 1, e, base) {
      var i :| 0 <= i < |seen| && |seen| - n <= i && ReadyToMerge(seen[i], e, base);
      assert later[i] == seen[i];
    }
  }

  lemma ReadyIsSeen(r: Run, number: nat, e: Evidence, base: string)
    requires Current(r) && e.pr == number
    ensures
      var t := ReadEligible(r, number, e, base);
      && Current(t.run) && (t.run.seen == r.seen || exists g :: t.run.seen == r.seen + [g])
      && t.run.accepted == r.accepted && t.run.ledger == r.ledger
      && (t.result.Ok? ==> SeenReady(t.run.seen, 1, e, base))
  {
    ObservedIsCurrent(r);
    hide Observed, Ineligible, ReadyToMerge;
    var o := Observed(r);
    if number in o.github.prs && Ineligible(o.github.prs[number], e, base).None? {
      EligibleIsReady(o.github, e, base);
      assert ReadyToMerge(o.seen[|o.seen| - 1], e, base);
    }
  }

  lemma GreenIsSeen(r: Run, head: Commit, required: seq<string>)
    requires Current(r) && required != []
    ensures
      var t := ReadChecks(r, head, required);
      && Current(t.run) && (t.run.seen == r.seen || exists g :: t.run.seen == r.seen + [g])
      && t.run.accepted == r.accepted && t.run.ledger == r.ledger
      && (t.result.Ok? ==> SeenGreen(t.run.seen, 1, head, required))
  {
    ObservedIsCurrent(r);
    NoChecksAreRed(required);
    hide Observed, Verdict;
    var o := Observed(r);
    if ReadChecks(r, head, required).result.Ok? {
      VerdictIsGreen(o.github.checks[head], required);
      hide IsGreen;
      assert GreenOn(o.seen[|o.seen| - 1], head, required);
    }
  }

  /** Eligibility holds only with green checks among the last two states seen, and a ready pull request in the last. */
  lemma EligibilityIsSeen(r: Run, e: Evidence, required: seq<string>, base: string)
    requires Current(r) && required != []
    ensures
      var t := Eligibility(r, e, required, base);
      && Current(t.run) && t.run.accepted == r.accepted && t.run.ledger == r.ledger
      && (t.result.Ok? ==> SeenGreen(t.run.seen, 2, e.head, required) && SeenReady(t.run.seen, 1, e, base))
  {
    hide ReadEligible, ReadChecks, SeenGreen, SeenReady;
    ReadyIsSeen(r, e.pr, e, base);
    var first := ReadEligible(r, e.pr, e, base);
    if first.result.Ok? {
      GreenIsSeen(first.run, e.head, required);
      var checks := ReadChecks(first.run, e.head, required);
      if checks.result.Ok? {
        ReadyIsSeen(checks.run, e.pr, e, base);
        var last := ReadEligible(checks.run, e.pr, e, base);
        SeenStays(checks.run.seen, last.run.seen, 1, 1);
      }
    }
  }

  // ---- what an acceptance was preceded by ----

  /** The merge of this job was vetted: the states seen last when it was called show it ready, and its noted checks green. */
  ghost predicate VettedFor(r: Run, a: Acceptance, job: string, base: string, evidence: map<string, Evidence>) {
    && job in evidence && evidence[job].valid && evidence[job].authority == AutoMerge
    && a.pr == evidence[job].pr && a.head == evidence[job].head
    && job in r.ledger && r.ledger[job].Entry? && r.ledger[job].pr == a.pr && r.ledger[job].head == a.head
    && a.at <= |r.seen|
    && SeenGreen(r.seen[..a.at], 3, a.head, r.ledger[job].checks) && SeenReady(r.seen[..a.at], 3, evidence[job], base)
  }

  ghost predicate Vetted(r: Run, a: Acceptance, base: string, evidence: map<string, Evidence>) {
    exists job :: VettedFor(r, a, job, base, evidence)
  }

  ghost predicate AllVetted(r: Run, base: string, evidence: map<string, Evidence>) {
    forall i :: 0 <= i < |r.accepted| ==> Vetted(r, r.accepted[i], base, evidence)
  }

  lemma VettedStays(r: Run, t: Run, job: string, a: Acceptance, base: string, evidence: map<string, Evidence>)
    requires Keeps(r, t, job, evidence) && Vetted(r, a, base, evidence)
    ensures Vetted(t, a, base, evidence)
  {
    var k :| VettedFor(r, a, k, base, evidence);
    KeptAdvances(r, t, job, evidence);
    hide Safe, SeenGreen, SeenReady, SameExcept;
    assert t.seen[..a.at] == r.seen[..a.at];
    assert Advances(r.ledger[k], t.ledger[k]);
    assert VettedFor(t, a, k, base, evidence);
  }

  /** A step that accepts no merge keeps what was vetted. */
  lemma KeptIsVetted(r: Run, t: Run, job: string, base: string, evidence: map<string, Evidence>)
    requires Keeps(r, t, job, evidence) && AllVetted(r, base, evidence) && t.accepted == r.accepted
    ensures AllVetted(t, base, evidence)
  {
    hide Keeps, Vetted;
    forall i | 0 <= i < |t.accepted| ensures Vetted(t, t.accepted[i], base, evidence) {
      VettedStays(r, t, job, r.accepted[i], base, evidence);
    }
  }

  /** The ledger notes the job's intent, and what was seen last allows its merge. */
  ghost predicate MayMerge(r: Run, job: string, base: string, evidence: map<string, Evidence>) {
    && job in evidence && evidence[job].valid && evidence[job].authority == AutoMerge
    && job in r.ledger && r.ledger[job].Entry? && r.ledger[job].pr == evidence[job].pr && r.ledger[job].head == evidence[job].head
    && SeenGreen(r.seen, 2, evidence[job].head, r.ledger[job].checks) && SeenReady(r.seen, 2, evidence[job], base)
  }

  lemma MergeIsVetted(r: Run, job: string, how: Method, base: string, evidence: map<string, Evidence>)
    requires Safe(r, evidence) && AllVetted(r, base, evidence) && MayMerge(r, job, base, evidence)
    ensures AllVetted(CalledMerge(r, evidence[job].pr, evidence[job].head, how).run, base, evidence)
  {
    var e := evidence[job];
    var t := CalledMerge(r, e.pr, e.head, how).run;
    MergingKeeps(r, job, how, evidence);
    NewAcceptance(r, e.pr, e.head, how);
    hide Keeps, Vetted, Safe, CalledMerge, SeenGreen, SeenReady, Current;
    forall i | 0 <= i < |t.accepted| ensures Vetted(t, t.accepted[i], base, evidence) {
      if i < |r.accepted| {
        VettedStays(r, t, job, r.accepted[i], base, evidence);
      } else {
        var a := t.accepted[i];
        SeenStays(r.seen, t.seen[..a.at], 2, 2);
        assert VettedFor(t, a, job, base, evidence);
        VettedByJob(t, a, job, base, evidence);
      }
    }
  }

  lemma VettedByJob(r: Run, a: Acceptance, job: string, base: string, evidence: map<string, Evidence>)
    requires VettedFor(r, a, job, base, evidence)
    ensures Vetted(r, a, base, evidence)
  {}

  /** At most one merge is accepted by a call, and at most one state is seen before it. */
  lemma NewAcceptance(r: Run, number: nat, head: Commit, how: Method)
    ensures
      var t := CalledMerge(r, number, head, how).run;
      && t.ledger == r.ledger && r.accepted <= t.accepted && |t.accepted| <= |r.accepted| + 1
      && (t.accepted == r.accepted
          || (var a := t.accepted[|r.accepted|];
              && a.pr == number && a.head == head && a.at <= |t.seen|
              && (t.seen[..a.at] == r.seen || exists g :: t.seen[..a.at] == r.seen + [g])))
  {
    hide Accepts, Merged;
    var o := Observed(r);
    assert o.seen == r.seen || o.seen == r.seen + [o.github];
    assert (o.seen + [o.github])[..|o.seen|] == o.seen;
  }

  // ---- the calls ----

  lemma SafeIsCurrent(r: Run, evidence: map<string, Evidence>)
    requires Safe(r, evidence)
    ensures Current(r)
  {}

  lemma SavingAcceptsNothing(r: Run, job: string, entry: Entry)
    ensures SavedEntry(r, job, entry).run.accepted == r.accepted && SavedEntry(r, job, entry).run.seen == r.seen
  {}

  lemma VerifyingAcceptsNothing(r: Run, number: nat, head: Commit, how: Method)
    ensures VerifiedMerge(r, number, head, how).run.accepted == r.accepted
  {
    hide IsAncestor;
  }

  lemma FinishingAcceptsNothing(r: Run, job: string, intent: Entry, plan: Plan)
    requires intent.Entry?
    ensures AfterAcceptance(r, job, intent, plan).run.accepted == r.accepted
  {
    hide SavedEntry, VerifiedMerge;
    SavingAcceptsNothing(r, job, intent.(status := Accepted));
    var noted := SavedEntry(r, job, intent.(status := Accepted));
    VerifyingAcceptsNothing(noted.run, intent.pr, intent.head, intent.how);
    var verified := VerifiedMerge(noted.run, intent.pr, intent.head, intent.how);
    if verified.result.Ok? {
      var entry := intent.(status := Verified, verification := Some(verified.result.value));
      SavingAcceptsNothing(verified.run, job, entry);
      SavingAcceptsNothing(SavedEntry(verified.run, job, entry).run, job, entry.(status := CleanedUp, cleaned := true));
    }
  }

  /** A job completed anew calls its merge only after what it needs was seen, in this very call. */
  lemma CompletingVets(r: Run, job: string, plan: Plan, base: string, evidence: map<string, Evidence>)
    requires Safe(r, evidence) && AllVetted(r, base, evidence) && job in evidence && job !in r.ledger
    ensures AllVetted(CompletedJob(r, job, evidence[job], plan, base).run, base, evidence)
  {
    hide Safe, AllVetted, Keeps, MarkedReady, Eligibility, SavedEntry, CalledMerge, AfterAcceptance, SeenGreen, SeenReady, Current;
    var e := evidence[job];
    if (plan.authority.None? || plan.authority.value == e.authority) && e.authority == AutoMerge && e.valid {
      var ready := MarkedReady(r, e.pr);
      ReadyKeeps(r, e.pr, job, evidence);
      ReadyingAcceptsNothing(r, e.pr);
      KeptIsVetted(r, ready, job, base, evidence);
      if plan.required != [] {
        KeptIsSafe(r, ready, job, evidence);
        SafeIsCurrent(ready, evidence);
        EligibilityKeeps(ready, e, plan.required, base, job, evidence);
        EligibilityIsSeen(ready, e, plan.required, base);
        var eligible := Eligibility(ready, e, plan.required, base);
        KeptIsVetted(ready, eligible.run, job, base, evidence);
        if eligible.result.Ok? {
          KeptIsSafe(ready, eligible.run, job, evidence);
          IntendedVets(eligible.run, job, plan, base, evidence);
        }
      }
    }
  }

  lemma ReadyingAcceptsNothing(r: Run, number: nat)
    ensures MarkedReady(r, number).accepted == r.accepted
  {}

  lemma IntendedVets(t: Run, job: string, plan: Plan, base: string, evidence: map<string, Evidence>)
    requires Safe(t, evidence) && AllVetted(t, base, evidence) && job in evidence && job !in t.ledger
    requires evidence[job].valid && evidence[job].authority == AutoMerge && plan.required != []
    requires SeenGreen(t.seen, 2, evidence[job].head, plan.required) && SeenReady(t.seen, 1, evidence[job], base)
    ensures
      var e, intent := evidence[job], IntentOf(evidence[job], plan);
      var noted := SavedEntry(t, job, intent);
      && AllVetted(noted.run, base, evidence)
      && (noted.result.Ok? ==>
        var merged := CalledMerge(noted.run, e.pr, e.head, plan.how);
        AllVetted(merged.run, base, evidence)
        && (merged.result.Ok? ==> AllVetted(AfterAcceptance(merged.run, job, intent, plan).run, base, evidence)))
  {
    var e, intent := evidence[job], IntentOf(evidence[job], plan);
    var noted := SavedEntry(t, job, intent);
    SavingKeeps(t, job, intent, evidence);
    SavingAcceptsNothing(t, job, intent);
    hide Safe, AllVetted, Keeps, CalledMerge, AfterAcceptance, SeenGreen, SeenReady, SavedEntry;
    KeptIsVetted(t, noted.run, job, base, evidence);
    if noted.result.Ok? {
      KeptIsSafe(t, noted.run, job, evidence);
      SeenStays(t.seen, noted.run.seen, 1, 1);
      MergeIsVetted(noted.run, job, plan.how, base, evidence);
      MergingKeeps(noted.run, job, plan.how, evidence);
      var merged := CalledMerge(noted.run, e.pr, e.head, plan.how);
      if merged.result.Ok? {
        KeptIsSafe(noted.run, merged.run, job, evidence);
        AcceptedKeeps(merged.run, job, intent, plan, evidence);
        FinishingAcceptsNothing(merged.run, job, intent, plan);
        KeptIsVetted(merged.run, AfterAcceptance(merged.run, job, intent, plan).run, job, base, evidence);
      }
    }
  }

  /** So does a recovered intent that is still open. */
  lemma RecoveringIntentVets(r: Run, job: string, existing: Entry, base: string, evidence: map<string, Evidence>)
    requires Safe(r, evidence) && AllVetted(r, base, evidence) && job in evidence && evidence[job].valid
    requires existing.Entry? && existing.status == Intent && GoodEntry(existing, evidence[job]) && existing.checks != []
    requires job in r.ledger && r.ledger[job] == existing
    ensures AllVetted(RecoveredIntent(r, job, evidence[job], existing, base).run, base, evidence)
  {
    hide Safe, AllVetted, Keeps, SavedEntry, CalledMerge, ReadChecks, Observed, Ineligible, SeenGreen, SeenReady, Current, ReadyToMerge;
    var e := evidence[job];
    SafeIsCurrent(r, evidence);
    ObservedKeeps(r, job, evidence);
    ReadyIsSeen(r, e.pr, e, base);
    var o := Observed(r);
    ObservedIsCurrent(r);
    KeptIsVetted(r, o, job, base, evidence);
    KeptIsSafe(r, o, job, evidence);
    if existing.pr in o.github.prs && o.github.prs[existing.pr].state.Open? && Ineligible(o.github.prs[existing.pr], e, base).None? {
      ChecksKeep(o, existing.head, existing.checks, job, evidence);
      GreenIsSeen(o, existing.head, existing.checks);
      var checks := ReadChecks(o, existing.head, existing.checks);
      KeptIsVetted(o, checks.run, job, base, evidence);
      if checks.result.Ok? {
        KeptIsSafe(o, checks.run, job, evidence);
        SeenStays(o.seen, checks.run.seen, 1, 1);
        SeenStays(checks.run.seen, checks.run.seen, 1, 1);
        PreparedMergeVets(checks.run, job, existing, base, evidence);
      }
    }
  }

  lemma PreparedMergeVets(t: Run, job: string, existing: Entry, base: string, evidence: map<string, Evidence>)
    requires Safe(t, evidence) && AllVetted(t, base, evidence) && job in evidence && evidence[job].valid
    requires existing.Entry? && existing.status == Intent && GoodEntry(existing, evidence[job])
    requires job in t.ledger && t.ledger[job] == existing
    requires SeenGreen(t.seen, 2, existing.head, existing.checks) && SeenReady(t.seen, 2, evidence[job], base)
    ensures
      var merged := CalledMerge(t, existing.pr, existing.head, existing.how);
      && AllVetted(merged.run, base, evidence)
      && (merged.result.Ok? ==> AllVetted(SavedEntry(merged.run, job, existing.(status := Accepted)).run, base, evidence))
  {
    KeepsItself(t, job, evidence);
    PreparedMergeKeeps(t, t, job, existing, evidence);
    hide Safe, AllVetted, Keeps, CalledMerge, SeenGreen, SeenReady, SavedEntry, Witnesses;
    MergeIsVetted(t, job, existing.how, base, evidence);
    var merged := CalledMerge(t, existing.pr, existing.head, existing.how);
    if merged.result.Ok? {
      var saved := SavedEntry(merged.run, job, existing.(status := Accepted));
      SavingAcceptsNothing(merged.run, job, existing.(status := Accepted));
      SavedIsVetted(merged.run, job, existing.(status := Accepted), base, evidence);
    }
  }

  /** Saving an advanced entry leaves the vetting as it was. */
  lemma SavedIsVetted(t: Run, job: string, entry: Entry, base: string, evidence: map<string, Evidence>)
    requires AllVetted(t, base, evidence) && job in t.ledger && Advances(t.ledger[job], entry)
    ensures AllVetted(SavedEntry(t, job, entry).run, base, evidence)
  {
    var saved := SavedEntry(t, job, entry).run;
    hide SeenGreen, SeenReady;
    forall i | 0 <= i < |saved.accepted| ensures Vetted(saved, saved.accepted[i], base, evidence) {
      var k :| VettedFor(t, t.accepted[i], k, base, evidence);
      assert VettedFor(saved, saved.accepted[i], k, base, evidence);
    }
  }

  // ---- entries come from plans ----

  /** The entry's checks and merge method are the plan's, which leaves the merge to the evidence's authority. */
  predicate Follows(entry: Entry, plan: Plan) {
    entry.Entry? ==>
      && entry.checks == plan.required && plan.required != [] && entry.how == plan.how
      && (plan.authority.None? || plan.authority.value == AutoMerge)
  }

  predicate PlannedBy(entry: Entry, job: string, plans: map<string, Plan>) { job in plans && Follows(entry, plans[job]) }

  ghost predicate AllPlanned(ledger: map<string, Entry>, all: seq<map<string, Plan>>) {
    forall job :: job in ledger && ledger[job].Entry? ==> exists i :: 0 <= i < |all| && PlannedBy(ledger[job], job, all[i])
  }

  lemma AdvancingFollows(a: Entry, b: Entry, plan: Plan)
    requires Advances(a, b) && a.Entry? && Follows(a, plan)
    ensures Follows(b, plan)
  {}

  lemma CompletingFollows(r: Run, job: string, plan: Plan, base: string, evidence: map<string, Evidence>)
    requires Safe(r, evidence) && job in evidence && job !in r.ledger
    ensures
      var done := CompletedJob(r, job, evidence[job], plan, base);
      && (job in done.run.ledger ==> Follows(done.run.ledger[job], plan))
      && (done.result.Ok? ==> Follows(done.result.value, plan))
  {
    hide Safe, Keeps, MarkedReady, Eligibility, SavedEntry, CalledMerge, AfterAcceptance;
    var e := evidence[job];
    if (plan.authority.None? || plan.authority.value == e.authority) && e.authority == AutoMerge && e.valid {
      ReadyKeeps(r, e.pr, job, evidence);
      var ready := MarkedReady(r, e.pr);
      if plan.required != [] {
        KeptIsSafe(r, ready, job, evidence);
        EligibilityKeeps(ready, e, plan.required, base, job, evidence);
        var eligible := Eligibility(ready, e, plan.required, base);
        if eligible.result.Ok? {
          KeptIsSafe(ready, eligible.run, job, evidence);
          IntentFollows(eligible.run, job, plan, evidence);
        }
      }
    }
  }

  lemma IntentFollows(t: Run, job: string, plan: Plan, evidence: map<string, Evidence>)
    requires Safe(t, evidence) && job in evidence && job !in t.ledger && evidence[job].authority == AutoMerge && plan.required != []
    requires plan.authority.None? || plan.authority.value == AutoMerge
    ensures
      var e, intent := evidence[job], IntentOf(evidence[job], plan);
      var noted := SavedEntry(t, job, intent);
      && (job in noted.run.ledger ==> Follows(noted.run.ledger[job], plan))
      && (noted.result.Ok? ==>
        var merged := CalledMerge(noted.run, e.pr, e.head, plan.how);
        && (job in merged.run.ledger ==> Follows(merged.run.ledger[job], plan))
        && (merged.result.Ok? ==>
          var after := AfterAcceptance(merged.run, job, intent, plan);
          && (job in after.run.ledger ==> Follows(after.run.ledger[job], plan))
          && (after.result.Ok? ==> Follows(after.result.value, plan))))
  {
    var e, intent := evidence[job], IntentOf(evidence[job], plan);
    assert Follows(intent, plan);
    var noted := SavedEntry(t, job, intent);
    SavingKeeps(t, job, intent, evidence);
    FailedSaveChangesNothing(t, job, intent);
    hide Safe, Keeps, CalledMerge, AfterAcceptance, SavedEntry;
    if noted.result.Ok? {
      KeptIsSafe(t, noted.run, job, evidence);
      MergingKeeps(noted.run, job, plan.how, evidence);
      var merged := CalledMerge(noted.run, e.pr, e.head, plan.how);
      if merged.result.Ok? {
        KeptIsSafe(noted.run, merged.run, job, evidence);
        AcceptedKeeps(merged.run, job, intent, plan, evidence);
        var after := AfterAcceptance(merged.run, job, intent, plan);
        KeptJobAdvances(merged.run, after.run, job, evidence);
        AdvancingFollows(intent, after.run.ledger[job], plan);
        if after.result.Ok? {
          AdvancingFollows(after.run.ledger[job], after.result.value, plan);
        }
      }
    }
  }

  lemma KeptJobAdvances(r: Run, t: Run, job: string, evidence: map<string, Evidence>)
    requires Keeps(r, t, job, evidence) && job in r.ledger
    ensures job in t.ledger && Advances(r.ledger[job], t.ledger[job])
  {
    hide Safe, Later, SameExcept, Advances;
  }

  // ---- a pass ----

  /** What was accepted was vetted, and what is in the ledger was planned. */
  ghost predicate Gated(r: Run, base: string, evidence: map<string, Evidence>, all: seq<map<string, Plan>>) {
    AllVetted(r, base, evidence) && AllPlanned(r.ledger, all)
  }

  lemma ConcludingAcceptsNothing(r: Run, memory: map<string, Entry>, job: string, terminal: Entry, plan: Plan)
    ensures
      var done := Concluded(r, memory, job, terminal, plan);
      && done.run.accepted == r.accepted
      && (done.run.ledger == r.ledger || done.run.ledger == memory[job := if terminal.Entry? then terminal.(released := true) else terminal])
  {}

  lemma RecoveringVets(r: Run, job: string, plan: Plan, base: string, evidence: map<string, Evidence>)
    requires Safe(r, evidence) && AllVetted(r, base, evidence) && job in evidence && job in r.ledger && r.ledger[job].Entry?
    requires r.ledger[job].checks != []
    ensures AllVetted(RecoveredJob(r, job, evidence[job], plan, r.ledger[job], base).run, base, evidence)
  {
    var existing := r.ledger[job];
    assert GoodEntry(existing, evidence[job]) && Proven(r, existing);
    hide Safe, AllVetted, Keeps, VerifiedMerge, RecoveredIntent, RecoveredMerge, GoodEntry, Proven;
    if existing.status == MergedStatus {
      VerifyingKeeps(r, existing.pr, existing.head, existing.how, job, evidence);
      VerifyingAcceptsNothing(r, existing.pr, existing.head, existing.how);
      KeptIsVetted(r, VerifiedMerge(r, existing.pr, existing.head, existing.how).run, job, base, evidence);
    } else if existing.status == OtherStatus || (existing.status == CleanedUp && (existing.released || !evidence[job].identified)) {
    } else if evidence[job].valid && existing.head == evidence[job].head {
      if existing.status == Intent {
        RecoveringIntentVets(r, job, existing, base, evidence);
        RecoveringIntentKeeps(r, job, existing, base, evidence);
        var recovered := RecoveredIntent(r, job, evidence[job], existing, base);
        if recovered.result.Ok? {
          KeptIsSafe(r, recovered.run, job, evidence);
          KeptIsProven(r, recovered.run, job, existing, evidence);
          RecoveredMergeVets(recovered.run, job, existing, plan, base, evidence);
        }
      } else {
        RecoveredMergeVets(r, job, existing, plan, base, evidence);
      }
    }
  }

  lemma RecoveredMergeVets(r: Run, job: string, existing: Entry, plan: Plan, base: string, evidence: map<string, Evidence>)
    requires Safe(r, evidence) && AllVetted(r, base, evidence) && job in evidence && existing.Entry? && GoodEntry(existing, evidence[job])
    requires job in r.ledger && Advances(r.ledger[job], existing.(status := MergedStatus)) && existing.status != OtherStatus
    requires Proven(r, existing)
    ensures AllVetted(RecoveredMerge(r, existing, plan).run, base, evidence)
  {
    RecoveringMergeKeeps(r, job, existing, plan, evidence);
    VerifyingAcceptsNothing(r, existing.pr, existing.head, existing.how);
    hide Safe, AllVetted, Keeps, VerifiedMerge, GoodEntry, Proven;
    KeptIsVetted(r, RecoveredMerge(r, existing, plan).run, job, base, evidence);
  }

  lemma JobVets(r: Run, job: string, cfg: Config, all: seq<map<string, Plan>>)
    requires Safe(r, cfg.evidence) && Gated(r, cfg.base, cfg.evidence, all) && cfg.plans in all
    ensures AllVetted(JobDone(r, r.ledger, job, cfg).run, cfg.base, cfg.evidence)
  {
    hide Safe, AllVetted, AllPlanned, Keeps, RecoveredJob, CompletedJob, Concluded, GoodEntry, Advances, Proven;
    if job in cfg.evidence && job in cfg.plans {
      var plan := cfg.plans[job];
      if job !in r.ledger {
        CompletingKeeps(r, job, plan, cfg.base, cfg.evidence);
        CompletingVets(r, job, plan, cfg.base, cfg.evidence);
        var done := CompletedJob(r, job, cfg.evidence[job], plan, cfg.base);
        if done.result.Ok? {
          ConclusionVets(r, done.run, job, done.result.value, plan, cfg);
        }
      } else if r.ledger[job].Entry? {
        PlannedHasChecks(r.ledger, job, all);
        RecoveringKeeps(r, job, plan, cfg.base, cfg.evidence);
        RecoveringVets(r, job, plan, cfg.base, cfg.evidence);
        var done := RecoveredJob(r, job, cfg.evidence[job], plan, r.ledger[job], cfg.base);
        if done.result.Ok? && done.result.value.Some? {
          ConclusionVets(r, done.run, job, done.result.value.value, plan, cfg);
        }
      }
    }
  }

  lemma PlannedHasChecks(ledger: map<string, Entry>, job: string, all: seq<map<string, Plan>>)
    requires AllPlanned(ledger, all) && job in ledger && ledger[job].Entry?
    ensures ledger[job].checks != []
  {}

  lemma ConclusionVets(r: Run, t: Run, job: string, terminal: Entry, plan: Plan, cfg: Config)
    requires Keeps(r, t, job, cfg.evidence) && job in cfg.evidence && GoodEntry(terminal, cfg.evidence[job]) && Proven(t, terminal)
    requires job in t.ledger ==> Advances(t.ledger[job], terminal)
    requires AllVetted(t, cfg.base, cfg.evidence)
    ensures AllVetted(Concluded(t, r.ledger, job, terminal, plan).run, cfg.base, cfg.evidence)
  {
    KeptIsSafe(r, t, job, cfg.evidence);
    assert SameExcept(r.ledger, t.ledger, job);
    hide Safe, AllVetted, Keeps, Concluded, GoodEntry, Advances, Proven;
    ConcludingKeeps(t, r.ledger, job, terminal, plan, cfg.evidence);
    ConcludingAcceptsNothing(t, r.ledger, job, terminal, plan);
    KeptIsVetted(t, Concluded(t, r.ledger, job, terminal, plan).run, job, cfg.base, cfg.evidence);
  }

  lemma JobPlans(r: Run, job: string, cfg: Config, all: seq<map<string, Plan>>)
    requires Safe(r, cfg.evidence) && AllPlanned(r.ledger, all) && cfg.plans in all
    ensures AllPlanned(JobDone(r, r.ledger, job, cfg).run.ledger, all)
  {
    JobKeeps(r, job, cfg);
    JobFollows(r, job, cfg);
    hide Safe, JobDone, Advances, Follows, Later;
    var t := JobDone(r, r.ledger, job, cfg).run.ledger;
    forall k | k in t && t[k].Entry? ensures exists i :: 0 <= i < |all| && PlannedBy(t[k], k, all[i]) {
      if k in r.ledger {
        assert Advances(r.ledger[k], t[k]) by { AdvancesItself(r.ledger[k]); }
        StillPlanned(r.ledger[k], t[k], k, all);
      } else {
        var i :| 0 <= i < |all| && all[i] == cfg.plans;
        assert PlannedBy(t[k], k, all[i]);
      }
    }
  }

  lemma StillPlanned(a: Entry, b: Entry, job: string, all: seq<map<string, Plan>>)
    requires Advances(a, b) && b.Entry? && (a.Entry? ==> exists i :: 0 <= i < |all| && PlannedBy(a, job, all[i]))
    ensures exists i :: 0 <= i < |all| && PlannedBy(b, job, all[i])
  {
    var i :| 0 <= i < |all| && PlannedBy(a, job, all[i]);
    AdvancingFollows(a, b, all[i][job]);
  }

  /** An entry that is new follows this pass's plan for its job. */
  lemma JobFollows(r: Run, job: string, cfg: Config)
    requires Safe(r, cfg.evidence)
    ensures
      var t := JobDone(r, r.ledger, job, cfg).run.ledger;
      job in t && job !in r.ledger ==> job in cfg.plans && Follows(t[job], cfg.plans[job])
  {
    hide Safe, CompletedJob, RecoveredJob, Concluded, Follows;
    if job in cfg.evidence && job in cfg.plans && job !in r.ledger {
      CompletingFollows(r, job, cfg.plans[job], cfg.base, cfg.evidence);
      var done := CompletedJob(r, job, cfg.evidence[job], cfg.plans[job], cfg.base);
      if done.result.Ok? {
        ConcludingAcceptsNothing(done.run, r.ledger, job, done.result.value, cfg.plans[job]);
        ReleasedFollows(done.result.value, cfg.plans[job]);
      }
    }
  }

  lemma ReleasedFollows(entry: Entry, plan: Plan)
    requires Follows(entry, plan)
    ensures entry.Entry? ==> Follows(entry.(released := true), plan)
  {}

  lemma {:induction false} PassGates(r: Run, jobs: seq<string>, cfg: Config, all: seq<map<string, Plan>>)
    requires Safe(r, cfg.evidence) && Gated(r, cfg.base, cfg.evidence, all) && cfg.plans in all
    ensures Gated(Pass(r, r.ledger, jobs, cfg).run, cfg.base, cfg.evidence, all)
    decreases |jobs|
  {
    hide Safe, Keeps, JobDone, AllVetted, AllPlanned;
    if jobs != [] {
      JobKeeps(r, jobs[0], cfg);
      JobVets(r, jobs[0], cfg, all);
      JobPlans(r, jobs[0], cfg, all);
      var done := JobDone(r, r.ledger, jobs[0], cfg);
      KeptIsSafe(r, done.run, jobs[0], cfg.evidence);
      if done.result.Ok? {
        PassGates(done.run, jobs[1..], cfg, all);
      }
    }
  }

  // ---- any number of passes ----

  function PlansOf(sessions: seq<Session>): (all: seq<map<string, Plan>>)
    ensures |all| == |sessions| && forall i :: 0 <= i < |all| ==> all[i] == sessions[i].plans
  {
    if sessions == [] then [] else [sessions[0].plans] + PlansOf(sessions[1..])
  }

  lemma {:induction false} SessionsGate(r: Run, sessions: seq<Session>, base: string, evidence: map<string, Evidence>, all: seq<map<string, Plan>>)
    requires Safe(r, evidence) && Gated(r, base, evidence, all) && forall s :: s in sessions ==> s.plans in all
    ensures Gated(AfterSessions(r, sessions, base, evidence), base, evidence, all)
    decreases |sessions|
  {
    if sessions != [] {
      var s := sessions[0];
      var start := r.(others := s.others, budget := s.budget);
      var cfg := Config(base, evidence, s.plans);
      assert Safe(start, evidence);
      assert Gated(start, base, evidence, all) by { RestartedIsGated(r, s, base, evidence, all); }
      assert s in sessions;
      hide Safe, Gated, Pass;
      PassKeeps(start, s.jobs, cfg);
      PassGates(start, s.jobs, cfg, all);
      SessionsGate(RanOnce(start, s.jobs, cfg).run, sessions[1..], base, evidence, all);
    }
  }

  lemma RestartedIsGated(r: Run, s: Session, base: string, evidence: map<string, Evidence>, all: seq<map<string, Plan>>)
    requires Gated(r, base, evidence, all)
    ensures Gated(r.(others := s.others, budget := s.budget), base, evidence, all)
  {
    var start := r.(others := s.others, budget := s.budget);
    hide SeenGreen, SeenReady, AllPlanned;
    forall i | 0 <= i < |start.accepted| ensures Vetted(start, start.accepted[i], base, evidence) {
      var job :| VettedFor(r, r.accepted[i], job, base, evidence);
      assert VettedFor(start, start.accepted[i], job, base, evidence);
    }
  }

  /**
   Over any passes, wherever they die and whatever others do: every merge that GitHub accepted from here is of valid
   evidence with auto-merge authority. Among the last three states of GitHub seen when it was called, one showed the
   pull request open at that head, branch and base, mergeable, with no unresolved thread and no review against it, and
   one showed every required check green on that very head. The required checks are the ones its ledger entry notes,
   which are those of a plan that some pass had for the job, and are never none.
   */
  lemma MergesAreVetted(github: GitHub, sessions: seq<Session>, base: string, evidence: map<string, Evidence>)
    ensures
      var t := AfterSessions(Start(github), sessions, base, evidence);
      && (forall i :: 0 <= i < |t.accepted| ==> Vetted(t, t.accepted[i], base, evidence))
      && forall job :: job in t.ledger && t.ledger[job].Entry? ==>
        exists i :: 0 <= i < |sessions| && PlannedBy(t.ledger[job], job, sessions[i].plans)
  {
    var r, all := Start(github), PlansOf(sessions);
    assert Safe(r, evidence) && Gated(r, base, evidence, all);
    hide AfterSessions, Vetted, Safe, Follows;
    forall s | s in sessions ensures s.plans in all {
      var i :| 0 <= i < |sessions| && sessions[i] == s;
      assert all[i] == s.plans;
    }
    SessionsGate(r, sessions, base, evidence, all);
  }
}

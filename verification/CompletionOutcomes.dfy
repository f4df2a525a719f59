/** What one job comes to when nobody interferes: exactly when it is merged, recorded, escalated or refused. */
module CompletionOutcomes {
  import opened Outcomes
  import opened CheckFold
  import opened Completion
  import opened CompletionSafety
  import opened CompletionGates

  predicate Green(g: GitHub, head: Commit, required: seq<string>) {
    forall name :: name in required ==> Passes(if head in g.checks then g.checks[head] else [], name)
  }

  predicate AuthorityAgrees(e: Evidence, plan: Plan) { plan.authority.None? || plan.authority.value == e.authority }

  /** The evidence allows an automatic merge, and GitHub shows nothing against it. */
  predicate Mergeable(g: GitHub, e: Evidence, plan: Plan, base: string) {
    && AuthorityAgrees(e, plan) && e.authority == AutoMerge && e.valid && plan.required != []
    && ReadyToMerge(g, e, base) && Green(g, e.head, plan.required)
  }

  lemma ReadyExactly(g: GitHub, e: Evidence, base: string)
    ensures ReadyToMerge(g, e, base) <==> e.pr in g.prs && Ineligible(g.prs[e.pr], e, base).None?
  {}

  lemma GreenExactly(g: GitHub, head: Commit, required: seq<string>)
    ensures Green(g, head, required) <==> Verdict(if head in g.checks then g.checks[head] else [], required).None?
  {
    GreenIsAllPassing(if head in g.checks then g.checks[head] else [], required);
    hide Passes, Verdict;
  }

  /** GitHub once the draft is marked ready. */
  function Undrafted(g: GitHub, number: nat): GitHub {
    if number in g.prs && g.prs[number].draft then g.(prs := g.prs[number := g.prs[number].(draft := false)]) else g
  }

  lemma ReadyingLeftAlone(r: Run, e: Evidence, required: seq<string>, base: string)
    requires r.others == []
    ensures
      var ready := MarkedReady(r, e.pr);
      && ready.others == [] && ready.budget == r.budget && ready.ledger == r.ledger && ready.accepted == r.accepted
      && ready.github == Undrafted(r.github, e.pr)
      && (ReadyToMerge(ready.github, e, base) <==> ReadyToMerge(r.github, e, base))
      && (Green(ready.github, e.head, required) <==> Green(r.github, e.head, required))
  {
    hide Passes;
  }

  lemma EligibilityLeftAlone(r: Run, e: Evidence, required: seq<string>, base: string)
    requires r.others == []
    ensures
      var t := Eligibility(r, e, required, base);
      t.run == r && (t.result.Ok? <==> ReadyToMerge(r.github, e, base) && Green(r.github, e.head, required))
  {
    ReadyExactly(r.github, e, base);
    GreenExactly(r.github, e.head, required);
    hide Ineligible, ReadyToMerge, Verdict, Green;
  }

  /** A merge just accepted is verified at once. */
  lemma MergingLeftAlone(r: Run, e: Evidence, how: Method)
    requires r.others == [] && r.budget > 0 && Accepts(r.github, e.pr, e.head)
    ensures
      var t := CalledMerge(r, e.pr, e.head, how);
      var commit := MergeCommit(how, r.github.trunk, e.head);
      && t.result.Ok? && t.run.others == [] && t.run.budget == r.budget - 1 && t.run.ledger == r.ledger
      && t.run.accepted == r.accepted + [Acceptance(e.pr, e.head, |r.seen|)] && t.run.github == Merged(r.github, e.pr, how)
      && VerifiedMerge(t.run, e.pr, e.head, how) == Ran(t.run, Ok(Verification(commit, commit, IsAncestor(e.head, commit))))
  {
    var t := CalledMerge(r, e.pr, e.head, how).run;
    NewMergeStands(r.github, e.pr, how);
    VerifyingStands(t, e.pr, e.head, how);
    hide IsAncestor, MergeCommit, VerifiedMerge;
  }

  /** The terminal record of a merge made here. */
  function MergedEntry(e: Evidence, plan: Plan, trunk: Commit): Entry {
    var commit := MergeCommit(plan.how, trunk, e.head);
    IntentOf(e, plan).(status := MergedStatus, verification := Some(Verification(commit, commit, IsAncestor(e.head, commit))), cleaned := true)
  }

  lemma FinishingLeftAlone(r: Run, job: string, e: Evidence, plan: Plan, trunk: Commit)
    requires r.others == [] && r.budget >= 4
    requires
      var commit := MergeCommit(plan.how, trunk, e.head);
      VerifiedMerge(r.(ledger := r.ledger[job := IntentOf(e, plan).(status := Accepted)], budget := r.budget - 1), e.pr, e.head, plan.how)
      == Ran(r.(ledger := r.ledger[job := IntentOf(e, plan).(status := Accepted)], budget := r.budget - 1),
             Ok(Verification(commit, commit, IsAncestor(e.head, commit))))
    ensures
      var t := AfterAcceptance(r, job, IntentOf(e, plan), plan);
      && t.run.accepted == r.accepted && t.run.others == [] && t.run.budget >= 1
      && (t.result.Ok? <==> plan.cleanable) && (t.result.Ok? ==> t.result.value == MergedEntry(e, plan, trunk))
  {
    hide VerifiedMerge, IsAncestor, MergeCommit;
  }

  lemma VerifyingIgnoresLedger(r: Run, t: Run, number: nat, head: Commit, how: Method, v: Verification)
    requires r.others == [] && t == r.(ledger := t.ledger, budget := t.budget) && VerifiedMerge(r, number, head, how) == Ran(r, Ok(v))
    ensures VerifiedMerge(t, number, head, how) == Ran(t, Ok(v))
  {
    hide IsAncestor;
  }

  lemma CompletedLeftAlone(r: Run, job: string, e: Evidence, plan: Plan, base: string)
    requires r.others == [] && r.budget >= 6
    ensures
      var t := CompletedJob(r, job, e, plan, base);
      && t.run.others == [] && t.run.budget >= 1
      && t.run.accepted == r.accepted + (if Mergeable(r.github, e, plan, base) then [Acceptance(e.pr, e.head, |MarkedReady(r, e.pr).seen|)] else [])
      && (t.result.Ok? <==> AuthorityAgrees(e, plan) && (e.authority == AutoMerge ==> Mergeable(r.github, e, plan, base) && plan.cleanable))
      && (t.result.Ok? ==> t.result.value == if e.authority == AutoMerge then MergedEntry(e, plan, r.github.trunk) else Escalated)
  {
    assert r.accepted + [] == r.accepted;
    ReadyingLeftAlone(r, e, plan.required, base);
    var ready := MarkedReady(r, e.pr);
    EligibilityLeftAlone(ready, e, plan.required, base);
    hide MarkedReady, Eligibility, CalledMerge, AfterAcceptance, Green, ReadyToMerge, MergedEntry, SavedEntry;
    if AuthorityAgrees(e, plan) && e.authority == AutoMerge && e.valid && plan.required != [] && Eligibility(ready, e, plan.required, base).result.Ok? {
      MergedLeftAlone(ready, job, e, plan, base);
      assert ready.github.trunk == r.github.trunk;
    }
  }

  lemma MergedLeftAlone(r: Run, job: string, e: Evidence, plan: Plan, base: string)
    requires r.others == [] && r.budget >= 6 && ReadyToMerge(r.github, e, base)
    ensures
      var noted := SavedEntry(r, job, IntentOf(e, plan));
      && noted.result.Ok?
      && var merged := CalledMerge(noted.run, e.pr, e.head, plan.how);
      && merged.result.Ok?
      && var t := AfterAcceptance(merged.run, job, IntentOf(e, plan), plan);
      && t.run.accepted == r.accepted + [Acceptance(e.pr, e.head, |r.seen|)] && t.run.others == [] && t.run.budget >= 1
      && (t.result.Ok? <==> plan.cleanable) && (t.result.Ok? ==> t.result.value == MergedEntry(e, plan, r.github.trunk))
  {
    var noted := SavedEntry(r, job, IntentOf(e, plan));
    MergingLeftAlone(noted.run, e, plan.how);
    var merged := CalledMerge(noted.run, e.pr, e.head, plan.how);
    var commit := MergeCommit(plan.how, r.github.trunk, e.head);
    var t := merged.run.(ledger := merged.run.ledger[job := IntentOf(e, plan).(status := Accepted)], budget := merged.run.budget - 1);
    VerifyingIgnoresLedger(merged.run, t, e.pr, e.head, plan.how, Verification(commit, commit, IsAncestor(e.head, commit)));
    hide VerifiedMerge, IsAncestor, MergeCommit, CalledMerge;
    FinishingLeftAlone(merged.run, job, e, plan, r.github.trunk);
  }

  /**
   A job not in the ledger, left alone: its merge is called, once, if and only if authority, evidence, pull request and
   checks all allow it; the job is recorded as merged if and only if moreover cleanup, report, evidence and claim succeed;
   without auto-merge authority it is escalated; and in every other case it fails without a merge.
   */
  lemma NewJobDecided(r: Run, job: string, cfg: Config)
    requires r.others == [] && r.budget >= 6 && job !in r.ledger && job in cfg.evidence && job in cfg.plans
    ensures
      var e, plan := cfg.evidence[job], cfg.plans[job];
      var done, merges := JobDone(r, r.ledger, job, cfg), Mergeable(r.github, e, plan, cfg.base);
      && done.run.accepted == r.accepted + (if merges then [Acceptance(e.pr, e.head, |MarkedReady(r, e.pr).seen|)] else [])
      && (done.result.Ok? <==>
            && AuthorityAgrees(e, plan) && plan.published
            && (e.authority == AutoMerge ==> merges && plan.cleanable && plan.emitted && plan.claimReleased))
      && (done.result.Ok? ==>
            done.run.ledger == done.result.value == r.ledger[job :=
              if e.authority == AutoMerge then MergedEntry(e, plan, r.github.trunk).(released := true) else Escalated])
  {
    CompletedLeftAlone(r, job, cfg.evidence[job], cfg.plans[job], cfg.base);
    hide CompletedJob, Mergeable, MergeCommit, IsAncestor, MarkedReady;
  }

  // ---- jobs in the ledger ----

  /** What an entry needs to be finished, when the evidence and the plan agree to it. */
  predicate Finishable(r: Run, e: Evidence, existing: Entry, base: string)
    requires existing.Entry?
  {
    || existing.verification.Some?
    || (existing.pr in r.github.prs && MergeStands(r.github, existing.pr, existing.head, existing.how))
    || (existing.status == Intent && existing.pr in r.github.prs && existing.pr == e.pr
        && ReadyToMerge(r.github, e, base) && Green(r.github, existing.head, existing.checks))
  }

  /**
   A job in the ledger, left alone: a merged one passes if and only if its merge still stands, a status that is not
   known fails, a cleaned-up and released one is done, and any other is finished if and only if its evidence is valid
   and at its head, its merge was verified, stands or can still be made, and cleanup, report, evidence and claim succeed.
   */
  lemma KnownJobDecided(r: Run, job: string, cfg: Config)
    requires r.others == [] && r.budget >= 3 && job in r.ledger && r.ledger[job].Entry? && job in cfg.evidence && job in cfg.plans
    requires r.ledger[job].pr == cfg.evidence[job].pr && (r.ledger[job].status == Intent ==> r.ledger[job].verification.None?)
    ensures
      var existing, e, plan := r.ledger[job], cfg.evidence[job], cfg.plans[job];
      var done := JobDone(r, r.ledger, job, cfg);
      match existing.status
      case MergedStatus => done.result.Ok? <==> existing.pr in r.github.prs && MergeStands(r.github, existing.pr, existing.head, existing.how)
      case OtherStatus => done.result.Err?
      case _ =>
        done.result.Ok? <==>
          || (existing.status == CleanedUp && (existing.released || !e.identified))
          || (e.valid && existing.head == e.head && Finishable(r, e, existing, cfg.base)
              && (existing.cleaned || plan.cleanable) && plan.published && plan.emitted && plan.claimReleased)
  {
    var existing, e, plan := r.ledger[job], cfg.evidence[job], cfg.plans[job];
    VerifyingExactly(r, existing.pr, existing.head, existing.how);
    hide VerifiedMerge, MergeStands, RecoveredIntent, RecoveredMerge, Finishable;
    var over := existing.status == CleanedUp && (existing.released || !e.identified);
    if existing.status in {Intent, Accepted, Verified, CleanedUp} && !over && e.valid && existing.head == e.head {
      RecoveryDecided(r, job, e, plan, existing, cfg.base);
    }
  }

  lemma VerifyingExactly(r: Run, number: nat, head: Commit, how: Method)
    requires r.others == []
    ensures VerifiedMerge(r, number, head, how).run == r
    ensures VerifiedMerge(r, number, head, how).result.Ok? <==> number in r.github.prs && MergeStands(r.github, number, head, how)
  {
    if number in r.github.prs {
      VerifyingStands(r, number, head, how);
    }
    hide IsAncestor, MergeStands;
  }

  lemma MergeDecided(r: Run, existing: Entry, plan: Plan)
    requires r.others == [] && existing.Entry?
    ensures
      var t := RecoveredMerge(r, existing, plan);
      && t.run == r && (t.result.Ok? ==> t.result.value.Some? && t.result.value.value.Entry?)
      && (t.result.Ok? <==>
            && (existing.verification.Some? || (existing.pr in r.github.prs && MergeStands(r.github, existing.pr, existing.head, existing.how)))
            && (existing.cleaned || plan.cleanable))
  {
    VerifyingExactly(r, existing.pr, existing.head, existing.how);
    hide VerifiedMerge, MergeStands;
  }

  lemma IntentDecided(r: Run, job: string, e: Evidence, existing: Entry, base: string)
    requires r.others == [] && r.budget >= 3 && existing.Entry? && existing.status == Intent && existing.verification.None?
    requires existing.head == e.head && existing.pr == e.pr
    ensures
      var t := RecoveredIntent(r, job, e, existing, base);
      && (t.result.Ok? && (existing.pr in t.run.github.prs && MergeStands(t.run.github, existing.pr, existing.head, existing.how))
          <==> Finishable(r, e, existing, base))
      && (t.result.Ok? ==> t.run.others == [] && t.run.budget >= 1)
  {
    if e.pr in r.github.prs {
      IntentLeftAlone(r, job, e, existing, base);
      ReadyExactly(r.github, e, base);
      GreenExactly(r.github, existing.head, existing.checks);
      hide RecoveredIntent, Ineligible, Verdict, Green, IsAncestor;
    }
  }

  lemma RecoveryDecided(r: Run, job: string, e: Evidence, plan: Plan, existing: Entry, base: string)
    requires r.others == [] && r.budget >= 3 && existing.Entry? && existing.status in {Intent, Accepted, Verified, CleanedUp}
    requires e.valid && existing.head == e.head && existing.pr == e.pr && (existing.status == Intent ==> existing.verification.None?)
    requires !(existing.status == CleanedUp && (existing.released || !e.identified))
    ensures
      var t := RecoveredJob(r, job, e, plan, existing, base);
      && (t.result.Ok? <==> Finishable(r, e, existing, base) && (existing.cleaned || plan.cleanable))
      && (t.result.Ok? ==> t.result.value.Some? && t.result.value.value.Entry? && t.run.budget >= 1)
  {
    if existing.status == Intent {
      IntentDecided(r, job, e, existing, base);
      var recovered := RecoveredIntent(r, job, e, existing, base);
      hide RecoveredIntent, RecoveredMerge, Finishable, MergeStands;
      if recovered.result.Ok? {
        MergeDecided(recovered.run, existing, plan);
      }
    } else {
      MergeDecided(r, existing, plan);
      hide RecoveredIntent, RecoveredMerge, MergeStands;
    }
  }
}

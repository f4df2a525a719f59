/** The completion controller: it consumes published pull requests and merges only exact validated heads. */
module CompletionController {
  import opened Outcomes
  import opened CheckFold
  import opened Completion

  class Controller {
    var ledger: map<string, Entry>
    var github: GitHub
    var seen: seq<GitHub>
    var accepted: seq<Acceptance>
    var others: seq<GitHub>
    var budget: nat

    constructor (r: Run)
      ensures Contents() == r
    {
      ledger, github, seen, accepted, others, budget := r.ledger, r.github, r.seen, r.accepted, r.others, r.budget;
    }

    function Contents(): Run
      reads this
    {
      Run(ledger, github, seen, accepted, others, budget)
    }

    /** Whatever others did since GitHub was last looked at happens now. */
    method Observe()
      modifies `github, `seen, `others
      ensures Contents() == Observed(old(Contents()))
    {
      if others != [] {
        if Permitted(github, others[0]) {
          github := others[0];
        }
        seen, others := seen + [github], others[1..];
      }
    }

    method SaveLedger(entries: map<string, Entry>) returns (r: Result<bool, Stop>)
      modifies `ledger, `budget
      ensures Ran(Contents(), r) == SavedAs(old(Contents()), entries)
    {
      if budget == 0 {
        return Err(Died);
      }
      ledger, budget := entries, budget - 1;
      r := Ok(true);
    }

    /** Reads the ledger file again and replaces one entry of it. */
    method SaveLedgerEntry(job: string, entry: Entry) returns (r: Result<bool, Stop>)
      modifies `ledger, `budget
      ensures Ran(Contents(), r) == SavedEntry(old(Contents()), job, entry)
    {
      r := SaveLedger(ledger[job := entry]);
    }

    method MergePullRequest(number: nat, head: Commit, how: Method) returns (r: Result<bool, Stop>)
      modifies `github, `seen, `accepted, `others, `budget
      ensures Ran(Contents(), r) == CalledMerge(old(Contents()), number, head, how)
    {
      if budget == 0 {
        return Err(Died);
      }
      budget := budget - 1;
      Observe();
      if !Accepts(github, number, head) {
        return Err(Failed(MergeNotAccepted));
      }
      github, accepted := Merged(github, number, how), accepted + [Acceptance(number, head, |seen|)];
      seen := seen + [github];
      r := Ok(true);
    }

    method AssertEligible(number: nat, e: Evidence, base: string) returns (r: Result<bool, Stop>)
      modifies `github, `seen, `others
      ensures Ran(Contents(), r) == ReadEligible(old(Contents()), number, e, base)
    {
      Observe();
      if number !in github.prs {
        return Err(Failed(PullMissing));
      }
      var why := Ineligible(github.prs[number], e, base);
      r := if why.Some? then Err(Failed(why.value)) else Ok(true);
    }

    method AssertChecks(head: Commit, required: seq<string>) returns (r: Result<bool, Stop>)
      modifies `github, `seen, `others
      ensures Ran(Contents(), r) == ReadChecks(old(Contents()), head, required)
    {
      Observe();
      var green := ValidateRequiredChecks(if head in github.checks then github.checks[head] else [], required);
      r := if green.Err? then Err(Failed(CheckObjects(green.error))) else Ok(true);
    }

    method VerifyAfterMerge(number: nat, head: Commit, how: Method) returns (r: Result<Verification, Stop>)
      modifies `github, `seen, `others
      ensures Ran(Contents(), r) == VerifiedMerge(old(Contents()), number, head, how)
    {
      Observe();
      var trunk := github.trunk;
      Observe();
      if number !in github.prs || !github.prs[number].state.MergedAs? {
        return Err(Failed(NotMerged));
      }
      var commit := github.prs[number].state.commit;
      var keeps := IsAncestor(head, trunk);
      if !IsAncestor(commit, trunk) {
        return Err(Failed(MergeNotOnDefault));
      }
      if how == Merge && !keeps {
        return Err(Failed(HeadNotPreserved));
      }
      r := Ok(Verification(commit, trunk, keeps));
    }

    method MarkReady(number: nat)
      modifies `github, `seen, `others
      ensures Contents() == MarkedReady(old(Contents()), number)
    {
      Observe();
      if number in github.prs && github.prs[number].draft {
        github := github.(prs := github.prs[number := github.prs[number].(draft := false)]);
        seen := seen + [github];
      }
    }

    method AssertMergeable(e: Evidence, required: seq<string>, base: string) returns (r: Result<bool, Stop>)
      modifies `github, `seen, `others
      ensures Ran(Contents(), r) == Eligibility(old(Contents()), e, required, base)
    {
      hide ReadEligible, ReadChecks;
      r := AssertEligible(e.pr, e, base);
      if r.Ok? {
        r := AssertChecks(e.head, required);
      }
      if r.Ok? {
        r := AssertEligible(e.pr, e, base);
      }
    }

    method FinishAccepted(job: string, intent: Entry, plan: Plan) returns (r: Result<Entry, Stop>)
      requires intent.Entry?
      modifies this
      ensures Ran(Contents(), r) == AfterAcceptance(old(Contents()), job, intent, plan)
    {
      hide SavedEntry, VerifiedMerge;
      var noted := SaveLedgerEntry(job, intent.(status := Accepted));
      if noted.Err? {
        return Err(noted.error);
      }
      var verified := VerifyAfterMerge(intent.pr, intent.head, intent.how);
      if verified.Err? {
        return Err(verified.error);
      }
      var entry := intent.(status := Verified, verification := Some(verified.value));
      noted := SaveLedgerEntry(job, entry);
      if noted.Err? {
        return Err(noted.error);
      }
      if !plan.cleanable {
        return Err(Failed(CleanupOutsideRoots));
      }
      noted := SaveLedgerEntry(job, entry.(status := CleanedUp, cleaned := true));
      if noted.Err? {
        return Err(noted.error);
      }
      r := Ok(entry.(status := MergedStatus, cleaned := true));
    }

    method CompleteJob(job: string, e: Evidence, plan: Plan, base: string) returns (r: Result<Entry, Stop>)
      modifies this
      ensures Ran(Contents(), r) == CompletedJob(old(Contents()), job, e, plan, base)
    {
      hide SavedEntry, MarkedReady, Eligibility, CalledMerge, AfterAcceptance;
      if plan.authority.Some? && plan.authority.value != e.authority {
        return Err(Failed(AuthorityConflict));
      }
      if e.authority != AutoMerge {
        return Ok(Escalated);
      }
      if !e.valid {
        return Err(Failed(EvidenceInvalid));
      }
      MarkReady(e.pr);
      if plan.required == [] {
        return Err(Failed(NoRequiredChecks));
      }
      var step := AssertMergeable(e, plan.required, base);
      if step.Err? {
        return Err(step.error);
      }
      step := SaveLedgerEntry(job, IntentOf(e, plan));
      if step.Err? {
        return Err(step.error);
      }
      step := MergePullRequest(e.pr, e.head, plan.how);
      if step.Err? {
        return Err(step.error);
      }
      r := FinishAccepted(job, IntentOf(e, plan), plan);
    }

    method RecoverIntent(job: string, e: Evidence, existing: Entry, base: string) returns (r: Result<bool, Stop>)
      requires existing.Entry?
      modifies this
      ensures Ran(Contents(), r) == RecoveredIntent(old(Contents()), job, e, existing, base)
    {
      hide Observed, SavedEntry, ReadChecks, CalledMerge, Ineligible;
      Observe();
      if existing.pr !in github.prs {
        return Err(Failed(PullMissing));
      }
      match github.prs[existing.pr].state
      case MergedAs(_) => return Ok(true);
      case Closed => return Err(Failed(IntentCannotRecover));
      case Open =>
        var why := Ineligible(github.prs[existing.pr], e, base);
        if why.Some? {
          return Err(Failed(why.value));
        }
        r := AssertChecks(existing.head, existing.checks);
        if r.Ok? {
          r := MergePullRequest(existing.pr, existing.head, existing.how);
        }
        if r.Ok? {
          r := SaveLedgerEntry(job, existing.(status := Accepted));
        }
    }

    method RecoverExisting(job: string, e: Evidence, plan: Plan, existing: Entry, base: string) returns (r: Result<Option<Entry>, Stop>)
      requires existing.Entry?
      modifies this
      ensures Ran(Contents(), r) == RecoveredJob(old(Contents()), job, e, plan, existing, base)
    {
      hide VerifiedMerge, RecoveredIntent;
      if existing.status == MergedStatus {
        var again := VerifyAfterMerge(existing.pr, existing.head, existing.how);
        return if again.Err? then Err(again.error) else Ok(None);
      }
      if existing.status == OtherStatus {
        return Err(Failed(StatusUnknown));
      }
      if existing.status == CleanedUp && (existing.released || !e.identified) {
        return Ok(None);
      }
      if !e.valid {
        return Err(Failed(EvidenceInvalid));
      }
      if existing.head != e.head {
        return Err(Failed(HeadConflictsWithEvidence));
      }
      if existing.status == Intent {
        var recovered := RecoverIntent(job, e, existing, base);
        if recovered.Err? {
          return Err(recovered.error);
        }
      }
      var verification := existing.verification;
      if verification.None? {
        var verified := VerifyAfterMerge(existing.pr, existing.head, existing.how);
        if verified.Err? {
          return Err(verified.error);
        }
        verification := Some(verified.value);
      }
      if !existing.cleaned && !plan.cleanable {
        return Err(Failed(CleanupOutsideRoots));
      }
      r := Ok(Some(existing.(status := MergedStatus, verification := verification, cleaned := true)));
    }

    /** Publishes, emits evidence and releases the claim, and then saves the whole ledger held in memory. */
    method Conclude(memory: map<string, Entry>, job: string, terminal: Entry, plan: Plan) returns (r: Result<map<string, Entry>, Stop>)
      modifies `ledger, `budget
      ensures Ran(Contents(), r) == Concluded(old(Contents()), memory, job, terminal, plan)
    {
      if !plan.published {
        return Err(Failed(ReportNotPublished));
      }
      var entry := terminal;
      if terminal.Entry? {
        if !plan.emitted {
          return Err(Failed(EvidenceRefused));
        }
        if !plan.claimReleased {
          return Err(Failed(ClaimNotReleased));
        }
        entry := terminal.(released := true);
      }
      var saved := SaveLedger(memory[job := entry]);
      r := if saved.Err? then Err(saved.error) else Ok(memory[job := entry]);
    }

    method DoJob(memory: map<string, Entry>, job: string, cfg: Config) returns (r: Result<map<string, Entry>, Stop>)
      modifies this
      ensures Ran(Contents(), r) == JobDone(old(Contents()), memory, job, cfg)
    {
      hide RecoveredJob, CompletedJob, Concluded;
      if job !in cfg.evidence || job !in cfg.plans {
        return Ok(memory);
      }
      var e, plan := cfg.evidence[job], cfg.plans[job];
      var terminal;
      if job in memory {
        if memory[job].Escalated? {
          return Ok(memory);
        }
        var recovered := RecoverExisting(job, e, plan, memory[job], cfg.base);
        if recovered.Err? {
          return Err(recovered.error);
        }
        if recovered.value.None? {
          return Ok(memory);
        }
        terminal := recovered.value.value;
      } else {
        var completed := CompleteJob(job, e, plan, cfg.base);
        if completed.Err? {
          return Err(completed.error);
        }
        terminal := completed.value;
      }
      r := Conclude(memory, job, terminal, plan);
    }

    method RunOnce(jobs: seq<string>, cfg: Config) returns (r: Result<map<string, Entry>, Stop>)
      modifies this
      ensures Ran(Contents(), r) == RanOnce(old(Contents()), jobs, cfg)
    {
      hide JobDone;
      var memory := ledger;
      for i := 0 to |jobs|
        invariant RanOnce(old(Contents()), jobs, cfg) == Pass(Contents(), memory, jobs[i..], cfg)
      {
        assert jobs[i..][0] == jobs[i] && jobs[i..][1..] == jobs[i + 1..];
        var done := DoJob(memory, jobs[i], cfg);
        if done.Err? {
          return done;
        }
        memory := done.value;
      }
      r := Ok(memory);
    }
  }
}

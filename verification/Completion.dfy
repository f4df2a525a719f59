/** The completion ledger around an external merge: what each pass does to the ledger and to GitHub. */
module Completion {
  import opened Outcomes
  import opened CheckFold

  // ---- GitHub ----

  /** A commit is its content and its parents; its hash is the commit itself. */
  datatype Commit = Commit(content: string, parents: seq<Commit>)

  predicate IsAncestor(a: Commit, b: Commit)
    decreases b
  {
    a == b || exists i :: 0 <= i < |b.parents| && IsAncestor(a, b.parents[i])
  }

  datatype PrState = Open | Closed | MergedAs(commit: Commit)

  datatype Pr = Pr(state: PrState, draft: bool, head: Commit, branch: string, base: string, mergeable: bool,
                   unresolved: Option<nat>, decision: string)

  datatype GitHub = GitHub(prs: map<nat, Pr>, trunk: Commit, checks: map<Commit, seq<Observation>>)

  datatype Method = Merge | Squash | Rebase

  /** What others may do: anything, except that a merged pull request stays merged as it was. */
  predicate Permitted(a: GitHub, b: GitHub) {
    forall n :: n in a.prs && a.prs[n].state.MergedAs? ==> n in b.prs && b.prs[n].state == a.prs[n].state
  }

  function MergeCommit(how: Method, trunk: Commit, head: Commit): Commit {
    match how
    case Merge => Commit("merge", [trunk, head])
    case Squash => Commit("squash of " + head.content, [trunk])
    case Rebase => Commit(head.content, [trunk])
  }

  /** The merge call: accepted only for an open pull request whose head is the commit named. */
  predicate Accepts(g: GitHub, number: nat, head: Commit) {
    number in g.prs && g.prs[number].state.Open? && g.prs[number].head == head
  }

  function Merged(g: GitHub, number: nat, how: Method): GitHub
    requires number in g.prs
  {
    var commit := MergeCommit(how, g.trunk, g.prs[number].head);
    g.(prs := g.prs[number := g.prs[number].(state := MergedAs(commit))], trunk := commit)
  }

  // ---- ledger ----

  datatype Status = Intent | Accepted | Verified | CleanedUp | MergedStatus | OtherStatus

  datatype Verification = Verification(mergeCommit: Commit, defaultHead: Commit, keepsHead: bool)

  datatype Entry =
    | Escalated
    | Entry(status: Status, pr: nat, head: Commit, how: Method, checks: seq<string>,
            verification: Option<Verification>, cleaned: bool, released: bool)

  datatype Authority = AutoMerge | FounderRequired | NeverMerge

  /** The evidence published for a job, which never changes: whether it validates, and what it publishes. */
  datatype Evidence = Evidence(valid: bool, authority: Authority, pr: nat, head: Commit, branch: string, identified: bool)

  datatype Plan = Plan(authority: Option<Authority>, required: seq<string>, how: Method, cleanable: bool,
                       published: bool, emitted: bool, claimReleased: bool)

  datatype Config = Config(base: string, evidence: map<string, Evidence>, plans: map<string, Plan>)

  /** A merge GitHub accepted from this controller, and how many states of GitHub had been seen when it was called. */
  datatype Acceptance = Acceptance(pr: nat, head: Commit, at: nat)

  /**
   The ledger file, GitHub, every state of it seen so far, the merges accepted, what others will do to GitHub
   next, and how many more effects the process lives to have.
   */
  datatype Run = Run(ledger: map<string, Entry>, github: GitHub, seen: seq<GitHub>, accepted: seq<Acceptance>,
                     others: seq<GitHub>, budget: nat)

  /** Nothing done yet. */
  function Start(github: GitHub): Run { Run(map[], github, [github], [], [], 0) }

  datatype Fault =
    | MergeNotAccepted | PullNotOpen | HeadChanged | BaseChanged | NotMergeable | ThreadsUnknown
    | ThreadsUnresolved | ReviewBlocks | ReviewUnknown | PullMissing | NotMerged | MergeNotOnDefault
    | HeadNotPreserved | CleanupOutsideRoots | AuthorityConflict | EvidenceInvalid | NoRequiredChecks
    | IntentCannotRecover | StatusUnknown | HeadConflictsWithEvidence | ReportNotPublished | EvidenceRefused
    | ClaimNotReleased | CheckObjects(objection: Objection)

  datatype Stop = Died | Failed(why: Fault)

  datatype Ran<T> = Ran(run: Run, result: Result<T, Stop>)

  /** Others move before anything is read or called. */
  function Observed(r: Run): Run {
    if r.others == [] then r
    else
      var github := if Permitted(r.github, r.others[0]) then r.others[0] else r.github;
      r.(github := github, seen := r.seen + [github], others := r.others[1..])
  }

  function SavedAs(r: Run, ledger: map<string, Entry>): Ran<bool> {
    if r.budget == 0 then Ran(r, Err(Died)) else Ran(r.(ledger := ledger, budget := r.budget - 1), Ok(true))
  }

  function SavedEntry(r: Run, job: string, entry: Entry): Ran<bool> { SavedAs(r, r.ledger[job := entry]) }

  /** The merge call is an effect: the process may die before it, or after it without having noted it. */
  function CalledMerge(r: Run, number: nat, head: Commit, how: Method): Ran<bool> {
    if r.budget == 0 then Ran(r, Err(Died))
    else
      var o := Observed(r).(budget := r.budget - 1);
      if Accepts(o.github, number, head)
      then
        var github := Merged(o.github, number, how);
        Ran(o.(github := github, seen := o.seen + [github], accepted := o.accepted + [Acceptance(number, head, |o.seen|)]), Ok(true))
      else Ran(o, Err(Failed(MergeNotAccepted)))
  }

  /** Why a pull request may not be merged, if it may not. */
  function Ineligible(pr: Pr, e: Evidence, base: string): Option<Fault> {
    if !pr.state.Open? then Some(PullNotOpen)
    else if pr.branch != e.branch || pr.head != e.head then Some(HeadChanged)
    else if pr.base != base then Some(BaseChanged)
    else if !pr.mergeable then Some(NotMergeable)
    else if pr.unresolved.None? then Some(ThreadsUnknown)
    else if pr.unresolved.value != 0 then Some(ThreadsUnresolved)
    else if pr.decision in ["CHANGES_REQUESTED", "REVIEW_REQUIRED"] then Some(ReviewBlocks)
    else if pr.decision !in ["", "APPROVED"] then Some(ReviewUnknown)
    else None
  }

  function ReadEligible(r: Run, number: nat, e: Evidence, base: string): Ran<bool> {
    var o := Observed(r);
    if number !in o.github.prs then Ran(o, Err(Failed(PullMissing)))
    else
      var why := Ineligible(o.github.prs[number], e, base);
      Ran(o, if why.Some? then Err(Failed(why.value)) else Ok(true))
  }

  function ReadChecks(r: Run, head: Commit, required: seq<string>): Ran<bool> {
    var o := Observed(r);
    var checks := if head in o.github.checks then o.github.checks[head] else [];
    var objection := Verdict(checks, required);
    Ran(o, if objection.Some? then Err(Failed(CheckObjects(objection.value))) else Ok(true))
  }

  /** The default branch is fetched, then the pull request is read. */
  function VerifiedMerge(r: Run, number: nat, head: Commit, how: Method): Ran<Verification> {
    var fetched := Observed(r);
    var trunk := fetched.github.trunk;
    var o := Observed(fetched);
    if number !in o.github.prs || !o.github.prs[number].state.MergedAs? then Ran(o, Err(Failed(NotMerged)))
    else
      var commit := o.github.prs[number].state.commit;
      var keeps := IsAncestor(head, trunk);
      if !IsAncestor(commit, trunk) then Ran(o, Err(Failed(MergeNotOnDefault)))
      else if how == Merge && !keeps then Ran(o, Err(Failed(HeadNotPreserved)))
      else Ran(o, Ok(Verification(commit, trunk, keeps)))
  }

  /** A draft is marked ready before eligibility is read. */
  function MarkedReady(r: Run, number: nat): Run {
    var o := Observed(r);
    if number in o.github.prs && o.github.prs[number].draft
    then
      var github := o.github.(prs := o.github.prs[number := o.github.prs[number].(draft := false)]);
      o.(github := github, seen := o.seen + [github])
    else o
  }

  // ---- completing a job ----

  function Eligibility(r: Run, e: Evidence, required: seq<string>, base: string): Ran<bool> {
    var first := ReadEligible(r, e.pr, e, base);
    if first.result.Err? then first
    else
      var checks := ReadChecks(first.run, e.head, required);
      if checks.result.Err? then checks else ReadEligible(checks.run, e.pr, e, base)
  }

  /** From an accepted merge to the terminal record, each stage noted in the ledger. */
  function AfterAcceptance(r: Run, job: string, intent: Entry, plan: Plan): Ran<Entry>
    requires intent.Entry?
  {
    var noted := SavedEntry(r, job, intent.(status := Accepted));
    if noted.result.Err? then Ran(noted.run, Err(noted.result.error))
    else
      var verified := VerifiedMerge(noted.run, intent.pr, intent.head, intent.how);
      if verified.result.Err? then Ran(verified.run, Err(verified.result.error))
      else
        var entry := intent.(status := Verified, verification := Some(verified.result.value));
        var saved := SavedEntry(verified.run, job, entry);
        if saved.result.Err? then Ran(saved.run, Err(saved.result.error))
        else if !plan.cleanable then Ran(saved.run, Err(Failed(CleanupOutsideRoots)))
        else
          var cleaned := SavedEntry(saved.run, job, entry.(status := CleanedUp, cleaned := true));
          if cleaned.result.Err? then Ran(cleaned.run, Err(cleaned.result.error))
          else Ran(cleaned.run, Ok(entry.(status := MergedStatus, cleaned := true)))
  }

  function IntentOf(e: Evidence, plan: Plan): Entry { Entry(Intent, e.pr, e.head, plan.how, plan.required, None, false, false) }

  function CompletedJob(r: Run, job: string, e: Evidence, plan: Plan, base: string): Ran<Entry> {
    if plan.authority.Some? && plan.authority.value != e.authority
    then Ran(r, Err(Failed(AuthorityConflict)))
    else if e.authority != AutoMerge then Ran(r, Ok(Escalated))
    else if !e.valid then Ran(r, Err(Failed(EvidenceInvalid)))
    else
      var ready := MarkedReady(r, e.pr);
      if plan.required == [] then Ran(ready, Err(Failed(NoRequiredChecks)))
      else
        var eligible := Eligibility(ready, e, plan.required, base);
        if eligible.result.Err? then Ran(eligible.run, Err(eligible.result.error))
        else
          var noted := SavedEntry(eligible.run, job, IntentOf(e, plan));
          if noted.result.Err? then Ran(noted.run, Err(noted.result.error))
          else
            var merged := CalledMerge(noted.run, e.pr, e.head, plan.how);
            if merged.result.Err? then Ran(merged.run, Err(merged.result.error))
            else AfterAcceptance(merged.run, job, IntentOf(e, plan), plan)
  }

  // ---- recovering a job ----

  /** A prepared intent: the merge already happened, or is made now if the pull request still qualifies. */
  function RecoveredIntent(r: Run, job: string, e: Evidence, existing: Entry, base: string): Ran<bool>
    requires existing.Entry?
  {
    var o := Observed(r);
    if existing.pr !in o.github.prs then Ran(o, Err(Failed(PullMissing)))
    else
      match o.github.prs[existing.pr].state
      case MergedAs(_) => Ran(o, Ok(true))
      case Closed => Ran(o, Err(Failed(IntentCannotRecover)))
      case Open =>
        var why := Ineligible(o.github.prs[existing.pr], e, base);
        if why.Some? then Ran(o, Err(Failed(why.value)))
        else
          var checks := ReadChecks(o, existing.head, existing.checks);
          if checks.result.Err? then checks
          else
            var merged := CalledMerge(checks.run, existing.pr, existing.head, existing.how);
            if merged.result.Err? then merged else SavedEntry(merged.run, job, existing.(status := Accepted))
  }

  /** Verification and cleanup are taken from the ledger when it has them. */
  function RecoveredMerge(r: Run, existing: Entry, plan: Plan): Ran<Option<Entry>>
    requires existing.Entry?
  {
    var verified := if existing.verification.Some? then Ran(r, Ok(existing.verification.value))
                    else VerifiedMerge(r, existing.pr, existing.head, existing.how);
    if verified.result.Err? then Ran(verified.run, Err(verified.result.error))
    else if !existing.cleaned && !plan.cleanable
    then Ran(verified.run, Err(Failed(CleanupOutsideRoots)))
    else
      Ran(verified.run,
          Ok(Some(existing.(status := MergedStatus, verification := Some(verified.result.value), cleaned := true))))
  }

  function RecoveredJob(r: Run, job: string, e: Evidence, plan: Plan, existing: Entry, base: string): Ran<Option<Entry>>
    requires existing.Entry?
  {
    if existing.status == MergedStatus then
      var again := VerifiedMerge(r, existing.pr, existing.head, existing.how);
      Ran(again.run, if again.result.Err? then Err(again.result.error) else Ok(None))
    else if existing.status == OtherStatus then Ran(r, Err(Failed(StatusUnknown)))
    else if existing.status == CleanedUp && (existing.released || !e.identified) then Ran(r, Ok(None))
    else if !e.valid then Ran(r, Err(Failed(EvidenceInvalid)))
    else if existing.head != e.head then Ran(r, Err(Failed(HeadConflictsWithEvidence)))
    else if existing.status == Intent then
      var recovered := RecoveredIntent(r, job, e, existing, base);
      if recovered.result.Err? then Ran(recovered.run, Err(recovered.result.error))
      else RecoveredMerge(recovered.run, existing, plan)
    else RecoveredMerge(r, existing, plan)
  }

  // ---- one pass over the jobs ----

  /** Publishing the report, emitting evidence and releasing the claim may each fail; only then is the entry saved. */
  function Concluded(r: Run, memory: map<string, Entry>, job: string, terminal: Entry, plan: Plan): Ran<map<string, Entry>> {
    if !plan.published then Ran(r, Err(Failed(ReportNotPublished)))
    else if terminal.Entry? && !plan.emitted then Ran(r, Err(Failed(EvidenceRefused)))
    else if terminal.Entry? && !plan.claimReleased then Ran(r, Err(Failed(ClaimNotReleased)))
    else
      var entry := if terminal.Entry? then terminal.(released := true) else terminal;
      var saved := SavedAs(r, memory[job := entry]);
      Ran(saved.run, if saved.result.Err? then Err(saved.result.error) else Ok(memory[job := entry]))
  }

  function JobDone(r: Run, memory: map<string, Entry>, job: string, cfg: Config): Ran<map<string, Entry>> {
    if job !in cfg.evidence || job !in cfg.plans then Ran(r, Ok(memory))
    else
      var e, plan := cfg.evidence[job], cfg.plans[job];
      if job in memory then
        if memory[job].Escalated? then Ran(r, Ok(memory))
        else
          var recovered := RecoveredJob(r, job, e, plan, memory[job], cfg.base);
          if recovered.result.Err? then Ran(recovered.run, Err(recovered.result.error))
          else if recovered.result.value.None? then Ran(recovered.run, Ok(memory))
          else Concluded(recovered.run, memory, job, recovered.result.value.value, plan)
      else
        var completed := CompletedJob(r, job, e, plan, cfg.base);
        if completed.result.Err? then Ran(completed.run, Err(completed.result.error))
        else Concluded(completed.run, memory, job, completed.result.value, plan)
  }

  function Pass(r: Run, memory: map<string, Entry>, jobs: seq<string>, cfg: Config): Ran<map<string, Entry>>
    decreases |jobs|
  {
    if jobs == [] then Ran(r, Ok(memory))
    else
      var done := JobDone(r, memory, jobs[0], cfg);
      if done.result.Err? then done else Pass(done.run, done.result.value, jobs[1..], cfg)
  }

  /** One scheduled pass: the ledger file is loaded, then every job is taken in turn until one fails. */
  function RanOnce(r: Run, jobs: seq<string>, cfg: Config): Ran<map<string, Entry>> { Pass(r, r.ledger, jobs, cfg) }
}

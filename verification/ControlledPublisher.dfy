/** The single publisher of validated candidates: a branch pushed without force, and a draft pull request. */
module ControlledPublisher {
  import opened Outcomes
  import opened Publication

  class Publisher {
    var ledger: map<string, Entry>
    var remote: Remote
    var pushes: seq<Made>
    var drafts: seq<Made>
    var others: seq<Remote>
    var budget: nat

    constructor (r: Run)
      ensures Contents() == r
    {
      ledger, remote, pushes, drafts, others, budget := r.ledger, r.remote, r.pushes, r.drafts, r.others, r.budget;
    }

    function Contents(): Run
      reads this
    {
      Run(ledger, remote, pushes, drafts, others, budget)
    }

    /** Whatever others did since the remote was last looked at happens now. */
    method Observe()
      modifies `remote, `others
      ensures Contents() == Observed(old(Contents()))
    {
      if others != [] {
        if Permitted(remote, others[0]) {
          remote := others[0];
        }
        others := others[1..];
      }
    }

    method PushBranch(branch: string, commit: Commit) returns (r: Result<bool, Fault>)
      modifies this
      ensures Ran(Contents(), r) == Pushed(old(Contents()), branch, commit)
    {
      Observe();
      if branch in remote.branches {
        return if remote.branches[branch] == commit then Ok(false) else Err(BranchTaken);
      }
      if budget == 0 {
        return Err(Died);
      }
      remote := remote.(branches := remote.branches[branch := commit]);
      pushes, budget := pushes + [Made(branch, commit)], budget - 1;
      r := Ok(true);
    }

    method CreateDraft(branch: string, base: string) returns (r: Result<bool, Fault>)
      modifies this
      ensures Ran(Contents(), r) == DraftCreated(old(Contents()), branch, base)
    {
      if budget == 0 {
        return Err(Died);
      }
      if branch !in remote.branches {
        return Err(BranchMissing);
      }
      var head := remote.branches[branch];
      remote := remote.(pulls := remote.pulls[branch := PullsOf(remote, branch) + [Pull(Open, true, head, base)]]);
      drafts, budget := drafts + [Made(branch, head)], budget - 1;
      r := Ok(true);
    }

    method EnsureDraft(branch: string, commit: Commit, base: string) returns (r: Result<bool, Fault>)
      modifies this
      ensures Ran(Contents(), r) == Drafting(old(Contents()), branch, commit, base)
    {
      hide Observed, DraftCreated;
      Observe();
      r := FoundPull(remote, branch, commit, base);
      if r != Ok(false) {
        return if r.Err? then r else Ok(false);
      }
      r := CreateDraft(branch, base);
      if r.Err? {
        return;
      }
      Observe();
      r := FoundPull(remote, branch, commit, base);
      if r.Ok? {
        r := Ok(true);
      }
    }

    method PublishJob(job: string, e: Evidence, base: string) returns (r: Result<Entry, Fault>)
      modifies this
      ensures Ran(Contents(), r) == Published(old(Contents()), job, e, base)
    {
      hide Observed, Pushed, Drafting, Unpublishable;
      if !e.valid {
        return Err(Invalid);
      }
      if !e.admitted {
        return Err(NotAdmitted);
      }
      Observe();
      var main := remote.main;
      var why := Unpublishable(e, main);
      if why.Some? {
        return Err(why.value);
      }
      var commit := Candidate(main, job, e.time, e.message);
      Observe();
      if remote.main != main {
        return Err(MainMoved);
      }
      var step := PushBranch(e.branch, commit);
      if step.Ok? {
        step := EnsureDraft(e.branch, commit, base);
      }
      r := if step.Err? then Err(step.error) else Ok(Drafted(e.gate, e.branch, commit));
    }

    method VerifyEntry(e: Evidence, entry: Entry) returns (r: Result<bool, Fault>)
      requires entry.Drafted?
      modifies `remote, `others
      ensures Ran(Contents(), r) == Verified(old(Contents()), e, entry)
    {
      hide Observed;
      Observe();
      var pulls := PullsOf(remote, entry.branch);
      if entry.gate != e.gate {
        return Err(GateChanged);
      }
      if pulls == [] {
        return Err(PullMissing);
      }
      if |pulls| != 1 {
        return Err(TooManyPulls);
      }
      if !pulls[0].state.Merged? && pulls[0].head != entry.commit {
        return Err(PullDrifted);
      }
      if pulls[0].state.Closed? {
        return Err(PullNotOpen);
      }
      if pulls[0].state.Open? && (entry.branch !in remote.branches || remote.branches[entry.branch] != entry.commit) {
        return Err(BranchDrifted);
      }
      r := Ok(true);
    }

    method SaveLedger(entries: map<string, Entry>) returns (r: Result<bool, Fault>)
      modifies `ledger, `budget
      ensures Ran(Contents(), r) == SavedLedger(old(Contents()), entries)
    {
      if budget == 0 {
        return Err(Died);
      }
      ledger, budget := entries, budget - 1;
      r := Ok(true);
    }

    method DoJob(job: string, evidence: map<string, Evidence>, base: string) returns (r: Result<bool, Fault>)
      modifies this
      ensures Ran(Contents(), r) == JobDone(old(Contents()), job, evidence, base)
    {
      hide Published, Verified;
      if job !in evidence {
        return Ok(true);
      }
      if job in ledger {
        if ledger[job].PathDrift? {
          return Ok(true);
        }
        r := VerifyEntry(evidence[job], ledger[job]);
        return;
      }
      if !evidence[job].passed {
        return Ok(true);
      }
      var published := PublishJob(job, evidence[job], base);
      if published.Ok? {
        r := SaveLedger(ledger[job := published.value]);
      } else if published.error == Overlapping {
        r := SaveLedger(ledger[job := PathDrift(evidence[job].gate)]);
      } else {
        r := Err(published.error);
      }
    }

    method RunOnce(jobs: seq<string>, evidence: map<string, Evidence>, base: string) returns (r: Result<bool, Fault>)
      modifies this
      ensures Ran(Contents(), r) == RanOnce(old(Contents()), jobs, evidence, base)
    {
      hide JobDone;
      var order := NewFirst(jobs, ledger);
      for i := 0 to |order|
        invariant RanOnce(old(Contents()), jobs, evidence, base) == JobsDone(Contents(), order[i..], evidence, base)
      {
        assert order[i..][0] == order[i] && order[i..][1..] == order[i + 1..];
        r := DoJob(order[i], evidence, base);
        if r.Err? {
          return;
        }
      }
      assert order[|order|..] == [];
      r := Ok(true);
    }
  }
}

/** Publishing a validated candidate as one commit on one branch with one draft pull request. */
module Publication {
  import opened Outcomes

  /** A commit's hash is what it was made from; a candidate commit depends on nothing but its base and its evidence. */
  datatype Commit = Main(id: nat) | Candidate(base: Commit, job: string, time: string, message: string)

  datatype PullState = Open | Closed | Merged

  datatype Pull = Pull(state: PullState, draft: bool, head: Commit, base: string)

  datatype Remote = Remote(main: Commit, branches: map<string, Commit>, pulls: map<string, seq<Pull>>)

  predicate SameHeads(a: seq<Pull>, b: seq<Pull>) { |a| == |b| && forall i :: 0 <= i < |a| ==> b[i].head == a[i].head }

  /** What others may do: move the product base freely and act on pull requests, but not touch the branches. */
  predicate Permitted(a: Remote, b: Remote) {
    && b.branches == a.branches && b.pulls.Keys == a.pulls.Keys
    && forall branch :: branch in a.pulls ==> SameHeads(a.pulls[branch], b.pulls[branch])
  }

  /**
   A job's immutable evidence: whether it validates and is admitted, whether its gate passed, and the
   bases it does not descend from, overlaps with, or fails its checks on.
   */
  datatype Evidence = Evidence(valid: bool, passed: bool, admitted: bool, gate: string, branch: string, time: string, message: string,
                               detached: set<Commit>, overlapping: set<Commit>, failing: set<Commit>)

  datatype Entry = Drafted(gate: string, branch: string, commit: Commit) | PathDrift(gate: string)

  datatype Made = Made(branch: string, commit: Commit)

  /** The ledger file, the remote, the pushes and draft pull requests this publisher made, others' next moves, and effects left to live. */
  datatype Run = Run(ledger: map<string, Entry>, remote: Remote, pushes: seq<Made>, drafts: seq<Made>, others: seq<Remote>, budget: nat)

  datatype Fault =
    | Died | Invalid | NotAdmitted | Detached | Overlapping | ChecksFailed | NoTime | MainMoved | BranchTaken
    | TooManyPulls | PullNotOpen | PullNotDraft | PullDrifted | GateChanged | PullMissing | BranchMissing | BranchDrifted

  datatype Ran<T> = Ran(run: Run, result: Result<T, Fault>)

  function Observed(r: Run): Run {
    if r.others == [] then r
    else r.(remote := if Permitted(r.remote, r.others[0]) then r.others[0] else r.remote, others := r.others[1..])
  }

  function PullsOf(remote: Remote, branch: string): seq<Pull> { if branch in remote.pulls then remote.pulls[branch] else [] }

  /** The one open draft at the expected commit, nothing, or a fault. */
  function FoundPull(remote: Remote, branch: string, commit: Commit, base: string): Result<bool, Fault> {
    var pulls := PullsOf(remote, branch);
    if pulls == [] then Ok(false)
    else if |pulls| != 1 then Err(TooManyPulls)
    else if !pulls[0].state.Open? then Err(PullNotOpen)
    else if !pulls[0].draft then Err(PullNotDraft)
    else if pulls[0].head != commit || pulls[0].base != base then Err(PullDrifted)
    else Ok(true)
  }

  /** Pushes without force; the branch must be new or already at this very commit. */
  function Pushed(r: Run, branch: string, commit: Commit): Ran<bool> {
    var o := Observed(r);
    if branch in o.remote.branches then Ran(o, if o.remote.branches[branch] == commit then Ok(false) else Err(BranchTaken))
    else if o.budget == 0 then Ran(o, Err(Died))
    else
      Ran(o.(remote := o.remote.(branches := o.remote.branches[branch := commit]), pushes := o.pushes + [Made(branch, commit)],
             budget := o.budget - 1),
          Ok(true))
  }

  /** GitHub opens a draft for whatever the branch points at. */
  function DraftCreated(r: Run, branch: string, base: string): Ran<bool> {
    if r.budget == 0 then Ran(r, Err(Died))
    else if branch !in r.remote.branches then Ran(r, Err(BranchMissing))
    else
      var pull := Pull(Open, true, r.remote.branches[branch], base);
      Ran(r.(remote := r.remote.(pulls := r.remote.pulls[branch := PullsOf(r.remote, branch) + [pull]]),
             drafts := r.drafts + [Made(branch, r.remote.branches[branch])], budget := r.budget - 1),
          Ok(true))
  }

  /** Finds the draft, or creates it and reads it back. */
  function Drafting(r: Run, branch: string, commit: Commit, base: string): Ran<bool> {
    var o := Observed(r);
    var found := FoundPull(o.remote, branch, commit, base);
    if found.Err? then Ran(o, Err(found.error))
    else if found.value then Ran(o, Ok(false))
    else
      var created := DraftCreated(o, branch, base);
      if created.result.Err? then created
      else
        var again := Observed(created.run);
        var reread := FoundPull(again.remote, branch, commit, base);
        Ran(again, if reread.Err? then Err(reread.error) else Ok(true))
  }

  /** Why nothing may be published on this base, if nothing may. */
  function Unpublishable(e: Evidence, base: Commit): Option<Fault> {
    if base in e.detached then Some(Detached)
    else if base in e.overlapping then Some(Overlapping)
    else if base in e.failing then Some(ChecksFailed)
    else if e.time == "" then Some(NoTime)
    else None
  }

  function Published(r: Run, job: string, e: Evidence, base: string): Ran<Entry> {
    if !e.valid then Ran(r, Err(Invalid))
    else if !e.admitted then Ran(r, Err(NotAdmitted))
    else
      var o := Observed(r);
      var main := o.remote.main;
      var why := Unpublishable(e, main);
      if why.Some? then Ran(o, Err(why.value))
      else
        var commit := Candidate(main, job, e.time, e.message);
        var later := Observed(o);
        if later.remote.main != main then Ran(later, Err(MainMoved))
        else
          var pushed := Pushed(later, e.branch, commit);
          if pushed.result.Err? then Ran(pushed.run, Err(pushed.result.error))
          else
            var drafted := Drafting(pushed.run, e.branch, commit, base);
            Ran(drafted.run, if drafted.result.Err? then Err(drafted.result.error) else Ok(Drafted(e.gate, e.branch, commit)))
  }

  /** A drafted entry is re-proved every pass: same gate, one pull request still at the commit, branch undrifted. */
  function Verified(r: Run, e: Evidence, entry: Entry): Ran<bool>
    requires entry.Drafted?
  {
    var o := Observed(r);
    var pulls := PullsOf(o.remote, entry.branch);
    if entry.gate != e.gate then Ran(o, Err(GateChanged))
    else if pulls == [] then Ran(o, Err(PullMissing))
    else if |pulls| != 1 then Ran(o, Err(TooManyPulls))
    else if !pulls[0].state.Merged? && pulls[0].head != entry.commit then Ran(o, Err(PullDrifted))
    else if pulls[0].state.Closed? then Ran(o, Err(PullNotOpen))
    else if pulls[0].state.Open? && (entry.branch !in o.remote.branches || o.remote.branches[entry.branch] != entry.commit)
    then Ran(o, Err(BranchDrifted))
    else Ran(o, Ok(true))
  }

  function SavedLedger(r: Run, ledger: map<string, Entry>): Ran<bool> {
    if r.budget == 0 then Ran(r, Err(Died)) else Ran(r.(ledger := ledger, budget := r.budget - 1), Ok(true))
  }

  function JobDone(r: Run, job: string, evidence: map<string, Evidence>, base: string): Ran<bool> {
    if job !in evidence then Ran(r, Ok(true))
    else if job in r.ledger then
      if r.ledger[job].PathDrift? then Ran(r, Ok(true)) else Verified(r, evidence[job], r.ledger[job])
    else if !evidence[job].passed then Ran(r, Ok(true))
    else
      var published := Published(r, job, evidence[job], base);
      if published.result.Ok? then SavedLedger(published.run, published.run.ledger[job := published.result.value])
      else if published.result.error == Overlapping
      then SavedLedger(published.run, published.run.ledger[job := PathDrift(evidence[job].gate)])
      else Ran(published.run, Err(published.result.error))
  }

  function JobsDone(r: Run, jobs: seq<string>, evidence: map<string, Evidence>, base: string): Ran<bool>
    decreases |jobs|
  {
    if jobs == [] then Ran(r, Ok(true))
    else
      var done := JobDone(r, jobs[0], evidence, base);
      if done.result.Err? then done else JobsDone(done.run, jobs[1..], evidence, base)
  }

  function Where(jobs: seq<string>, ledger: map<string, Entry>, known: bool): seq<string> {
    if jobs == [] then [] else (if (jobs[0] in ledger) == known then [jobs[0]] else []) + Where(jobs[1..], ledger, known)
  }

  /** Jobs not in the ledger come first, so that an old draft's trouble cannot hold up a new candidate. */
  function NewFirst(jobs: seq<string>, ledger: map<string, Entry>): seq<string> { Where(jobs, ledger, false) + Where(jobs, ledger, true) }

  function RanOnce(r: Run, jobs: seq<string>, evidence: map<string, Evidence>, base: string): Ran<bool> {
    JobsDone(r, NewFirst(jobs, r.ledger), evidence, base)
  }
}

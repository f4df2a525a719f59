/** Where a pass and a recovery leave each job: which archive, under which name, and what stays where it was. */
module HostOutcomes {
  import opened Outcomes
  import opened HostQueue
  import opened HostQueueSafety

  // ---- one claimed job ----

  /** The queue once the claimed job is archived. */
  function Ended(q: Queue, name: string, outcome: Outcome): Queue
    requires name in q.running && q.claims != []
  {
    var file, kept := q.running[name], outcome.ArtifactsFail? || outcome.RenameFails?;
    q.(running := q.running - {name},
       ran := if outcome.SourceDrifts? then q.ran else q.ran + [|q.claims| - 1],
       completed := if outcome.Succeeds? then q.completed[name := Some(file)] else q.completed,
       failed := if outcome.Succeeds? then q.failed else q.failed[Plain(name) := if outcome.RenameFails? then None else Some(file)],
       staging := if kept then q.staging[q.tokens := Some(file)] else q.staging,
       tokens := q.tokens + if kept then 2 else 1)
  }

  /** A claimed job whose name is not archived yet. */
  predicate Runnable(q: Queue, name: string) {
    && GoodTokens(q) && name in q.running && name !in q.pending && name !in q.completed && Plain(name) !in q.failed && q.claims != []
  }

  lemma FailureEnds(q: Queue, name: string)
    requires GoodTokens(q) && name !in q.pending && Plain(name) !in q.failed
    ensures All(q, FailureOps(q, name, name)) == Archived(q, name, Plain(name))
  {
    FailureFits(q, name);
    hide All, FailureOps, Archived;
  }

  lemma SuccessEnds(q: Queue, name: string)
    requires Runnable(q, name)
    ensures
      var t := All(q, SuccessOps(q, name, name, Succeeds));
      t == q.(running := q.running - {name}, completed := q.completed[name := Some(q.running[name])], tokens := q.tokens + 1)
  {
    CopiedState(q, name);
    DroppedIs(q, name);
    var dropping := CopyOps(name, q.tokens) + [DropRunning(name)];
    var dropped := Applied(Copied(q, name), DropRunning(name));
    AllOne(dropped, Complete(q.tokens, name));
    assert Fits(dropped, Complete(q.tokens, name));
    AllFitConcat(q, dropping, [Complete(q.tokens, name)]);
    assert dropped.staging - {q.tokens} == q.staging;
    hide All, Performed, CopyOps, AllFit, GoodTokens, Copied;
  }

  lemma DroppedIs(q: Queue, name: string)
    requires Runnable(q, name)
    ensures
      var dropped := Applied(Copied(q, name), DropRunning(name));
      && q.tokens !in q.staging && name !in dropped.pending
      && dropped == q.(running := q.running - {name}, staging := q.staging[q.tokens := Some(q.running[name])], tokens := q.tokens + 1)
  {}

  lemma ArtifactsEnd(q: Queue, name: string)
    requires Runnable(q, name)
    ensures
      var t := All(q, SuccessOps(q, name, name, ArtifactsFail));
      t == q.(running := q.running - {name}, staging := q.staging[q.tokens := Some(q.running[name])],
              failed := q.failed[Plain(name) := Some(q.running[name])], tokens := q.tokens + 2)
  {
    CopiedState(q, name);
    CopyKeepsTokens(q, name);
    var copy, copied := CopyOps(name, q.tokens), Copied(q, name);
    FailureFits(copied, name);
    FailureEnds(copied, name);
    AllFitConcat(q, copy, FailureOps(copied, name, name));
    hide All, Performed, CopyOps, AllFit, GoodTokens, FailureOps;
  }

  lemma RenameEnds(q: Queue, name: string)
    requires Runnable(q, name)
    ensures
      var t := All(q, SuccessOps(q, name, name, RenameFails));
      t == q.(running := q.running - {name}, staging := q.staging[q.tokens := Some(q.running[name])],
              failed := q.failed[Plain(name) := None], tokens := q.tokens + 2)
  {
    CopiedState(q, name);
    CopyKeepsTokens(q, name);
    var dropping := CopyOps(name, q.tokens) + [DropRunning(name)];
    var dropped := Applied(Copied(q, name), DropRunning(name));
    FailureFits(dropped, name);
    FailureEnds(dropped, name);
    AllFitConcat(q, dropping, FailureOps(dropped, name, name));
    assert dropped.running - {name} == q.running - {name};
    hide All, Performed, CopyOps, AllFit, GoodTokens, FailureOps;
  }

  /**
   A claimed job ends in the completed archive under its id if and only if everything succeeded, and otherwise in the
   failed archive under its id; it was handed to the runner if and only if the source had not drifted. Its file is in
   that archive, except that a failed rename leaves it in the staging directory that the next recovery archives.
   */
  lemma RunDecides(q: Queue, name: string, outcome: Outcome)
    requires Runnable(q, name)
    ensures All(q, RunOps(q, name, name, outcome)) == Ended(q, name, outcome)
  {
    var handed := Applied(q, HandToRunner);
    assert Runnable(handed, name);
    hide All, FailureOps, SuccessOps, Runnable;
    if outcome.SourceDrifts? {
      RunnableFacts(q, name);
      FailureEnds(q, name);
    } else {
      RunnableFacts(handed, name);
      var rest := if outcome.RunnerFails? then FailureOps(handed, name, name) else SuccessOps(handed, name, name, outcome);
      AfterHanding(q, rest);
      match outcome
      case RunnerFails => FailureEnds(handed, name);
      case ArtifactsFail => ArtifactsEnd(handed, name);
      case RenameFails => RenameEnds(handed, name);
      case Succeeds => SuccessEnds(handed, name);
    }
  }

  lemma RunnableFacts(q: Queue, name: string)
    requires Runnable(q, name)
    ensures GoodTokens(q) && name !in q.pending && Plain(name) !in q.failed && name in q.running && q.claims != []
  {}

  lemma AfterHanding(q: Queue, rest: seq<Op>)
    ensures All(q, [HandToRunner] + rest) == All(Applied(q, HandToRunner), rest)
  {
    hide Applied;
    assert ([HandToRunner] + rest)[0] == HandToRunner && ([HandToRunner] + rest)[1..] == rest;
  }

  // ---- a pass ----

  /** The queue once an unreadable file is archived. */
  function Discarded(q: Queue, name: string, archive: ArchiveName): Queue
    requires name in q.pending
  {
    q.(pending := q.pending - {name}, claims := q.claims + [Claim(name, q.pending[name])],
       failed := q.failed[archive := Some(q.pending[name])], tokens := q.tokens + 1)
  }

  function DiscardOps(q: Queue, name: string): seq<Op> {
    [MoveToRunning(name)] + FailureOps(Applied(q, MoveToRunning(name)), name, name)
  }

  lemma DiscardingEnds(q: Queue, name: string) returns (archive: ArchiveName)
    requires Good(q) && name in q.pending
    ensures Good(All(q, DiscardOps(q, name))) && All(q, DiscardOps(q, name)) == Discarded(q, name, archive) && archive !in q.failed
    ensures archive.Plain? ==> archive.id == name
  {
    var claimed := Applied(q, MoveToRunning(name));
    archive := FailedName(claimed, name, claimed.tokens);
    AllOne(q, MoveToRunning(name));
    AppliedKeepsGood(q, MoveToRunning(name));
    GoodHasTokens(claimed);
    GoodClaim(q, name);
    FreshArchive(claimed, name);
    FailureFits(claimed, name);
    assert Archived(claimed, name, archive) == Discarded(q, name, archive) by {
      assert claimed.running - {name} == q.running;
    }
    hide Good, FailureOps, Applied, Archived, GoodTokens, Performed;
    AllFitConcat(q, [MoveToRunning(name)], FailureOps(claimed, name, name));
    PerformedKeepsGood(q, DiscardOps(q, name), |DiscardOps(q, name)|);
  }

  lemma GoodClaim(q: Queue, name: string)
    requires Good(q) && name in q.pending
    ensures
      var claimed := Applied(q, MoveToRunning(name));
      && name !in q.running && name !in q.completed && Plain(name) !in q.failed
      && claimed == q.(pending := q.pending - {name}, running := q.running[name := q.pending[name]], claims := q.claims + [Claim(name, q.pending[name])])
      && (q.pending[name].Job? ==> q.pending[name].id == name && Runnable(claimed, name))
  {
    AppliedKeepsTokens(q, MoveToRunning(name));
    hide Held, GoodTokens, GoodRuns;
  }

  /** Jobs that are not claimed wait where they are, and no archive is touched that was there. */
  ghost predicate Waits(q: Queue, t: Queue, claimed: set<string>) {
    && t.running == q.running && t.ledger == q.ledger
    && (forall n :: n in t.pending ==> n in q.pending && t.pending[n] == q.pending[n])
    && (forall n :: n in q.pending && q.pending[n].Job? && n !in claimed ==> n in t.pending)
    && (forall archive :: archive in q.failed ==> archive in t.failed && t.failed[archive] == q.failed[archive])
  }

  /** The file is in a failed archive that is new. */
  ghost predicate NewlyFailed(q: Queue, t: Queue, file: File) {
    exists archive :: archive !in q.failed && archive in t.failed && t.failed[archive] == Some(file)
  }

  /** Unreadable files among the first `k` listed end in failed archives of their own. */
  ghost predicate Discards(q: Queue, t: Queue, order: seq<string>, k: int)
    requires 0 <= k <= |order|
  {
    forall j :: 0 <= j < k && order[j] in q.pending && q.pending[order[j]].Garbage? ==>
      order[j] !in t.pending && NewlyFailed(q, t, q.pending[order[j]])
  }

  predicate Approved(q: Queue, name: string) { name in q.pending && q.pending[name].Job? && q.pending[name].approved }

  lemma DiscardingWaits(q: Queue, u: Queue, t: Queue, name: string, archive: ArchiveName, claimed: set<string>, order: seq<string>, k: int)
    requires name in q.pending && q.pending[name].Garbage? && u == Discarded(q, name, archive) && archive !in q.failed
    requires Waits(u, t, claimed) && 0 < k <= |order| && order[0] == name && Discards(u, t, order[1..], k - 1)
    ensures Waits(q, t, claimed) && Discards(q, t, order, k)
  {
    assert u.failed[archive] == Some(q.pending[name]) && archive in u.failed;
    assert NewlyFailed(q, t, q.pending[name]) by { assert archive in t.failed && t.failed[archive] == Some(q.pending[name]); }
    forall j | 0 <= j < k && order[j] in q.pending && q.pending[order[j]].Garbage?
      ensures order[j] !in t.pending && NewlyFailed(q, t, q.pending[order[j]])
    {
      if order[j] != name {
        assert order[1..][j - 1] == order[j] && order[j] in u.pending && u.pending[order[j]] == q.pending[order[j]];
        assert NewlyFailed(u, t, u.pending[order[j]]);
      }
    }
  }

  lemma SkippingDiscards(q: Queue, t: Queue, order: seq<string>, k: int)
    requires 0 < k <= |order| && Discards(q, t, order[1..], k - 1) && !(order[0] in q.pending && q.pending[order[0]].Garbage?)
    ensures Discards(q, t, order, k)
  {
    hide NewlyFailed;
    forall j | 0 <= j < k && order[j] in q.pending && q.pending[order[j]].Garbage?
      ensures order[j] !in t.pending && NewlyFailed(q, t, q.pending[order[j]])
    {
      assert order[1..][j - 1] == order[j];
    }
  }

  /** Where an uninterrupted pass leaves the job it claims. */
  ghost predicate Lands(q: Queue, t: Queue, name: string, outcome: Outcome)
    requires name in q.pending
  {
    var file := q.pending[name];
    && name !in t.pending && t.claims != [] && t.claims[|t.claims| - 1] == Claim(name, file)
    && t.ran == (if outcome.SourceDrifts? then q.ran else q.ran + [|t.claims| - 1])
    && (outcome.Succeeds? ==> t.completed == q.completed[name := Some(file)] && Plain(name) !in t.failed)
    && (!outcome.Succeeds? ==>
      && t.completed == q.completed && Plain(name) !in q.failed && Plain(name) in t.failed
      && t.failed[Plain(name)] == (if outcome.RenameFails? then None else Some(file)))
    && (outcome.RenameFails? ==> exists token :: token in t.staging && t.staging[token] == Some(file))
  }

  lemma ClaimLands(q: Queue, name: string, outcome: Outcome)
    requires Good(q) && Approved(q, name)
    ensures
      var t := All(q, [MoveToRunning(name)] + RunOps(Applied(q, MoveToRunning(name)), name, name, outcome));
      Lands(q, t, name, outcome) && Waits(q, t, {name})
  {
    var claimed := Applied(q, MoveToRunning(name));
    GoodClaim(q, name);
    hide Applied, RunOps, Runnable, Ended, Good, All, Lands, Waits;
    RunDecides(claimed, name, outcome);
    AfterMoving(q, name, RunOps(claimed, name, name, outcome));
    assert claimed.claims != [] && name in claimed.running;
    EndedLands(q, claimed, name, outcome);
  }

  lemma EndedLands(q: Queue, claimed: Queue, name: string, outcome: Outcome)
    requires name in q.pending && name !in q.running && name !in q.completed && Plain(name) !in q.failed
    requires claimed == q.(pending := q.pending - {name}, running := q.running[name := q.pending[name]], claims := q.claims + [Claim(name, q.pending[name])])
    ensures Lands(q, Ended(claimed, name, outcome), name, outcome) && Waits(q, Ended(claimed, name, outcome), {name})
  {
    var t := Ended(claimed, name, outcome);
    assert claimed.running - {name} == q.running;
    if outcome.RenameFails? {
      assert q.tokens in t.staging && t.staging[q.tokens] == Some(q.pending[name]);
    }
  }

  lemma AfterMoving(q: Queue, name: string, rest: seq<Op>)
    ensures All(q, [MoveToRunning(name)] + rest) == All(Applied(q, MoveToRunning(name)), rest)
  {
    hide Applied;
    assert ([MoveToRunning(name)] + rest)[0] == MoveToRunning(name) && ([MoveToRunning(name)] + rest)[1..] == rest;
  }

  /**
   An uninterrupted pass over a listing in which `k` is the first approved job: that job lands as told, in the completed
   archive exactly if everything succeeded and otherwise in a failed one, and it was handed to the runner exactly if its
   source had not drifted; unreadable files listed before it are in failed archives; and all other jobs, approved
   or not, wait where they were.
   */
  lemma {:induction false} ProcessDecides(q: Queue, order: seq<string>, outcome: Outcome, k: int)
    requires Good(q) && 0 <= k < |order| && Approved(q, order[k]) && forall j :: 0 <= j < k ==> !Approved(q, order[j])
    ensures
      var t := All(q, ProcessOps(q, order, outcome));
      Lands(q, t, order[k], outcome) && Waits(q, t, {order[k]}) && Discards(q, t, order, k)
    decreases |order|
  {
    hide Good, RunOps, Lands, Waits, Discards, All, Applied;
    var name, t := order[0], All(q, ProcessOps(q, order, outcome));
    if k == 0 {
      PendingIsNamed(q, name);
      ClaimLands(q, name, outcome);
      NoneDiscarded(q, t, order);
    } else {
      assert order[1..][k - 1] == order[k];
      if name in q.pending && q.pending[name].Garbage? {
        var archive := DiscardingEnds(q, name);
        var u := All(q, DiscardOps(q, name));
        ApprovedLater(q, u, name, archive, order, k);
        ProcessDecides(u, order[1..], outcome, k - 1);
        DiscardingFirst(q, name, ProcessOps(u, order[1..], outcome));
        DiscardingWaits(q, u, t, name, archive, {order[k]}, order, k);
        DiscardingLands(q, u, t, name, archive, order[k], outcome);
      } else {
        assert forall j :: 0 <= j < k - 1 ==> order[1..][j] == order[j + 1];
        ProcessDecides(q, order[1..], outcome, k - 1);
        SkippingDiscards(q, t, order, k);
      }
    }
  }

  lemma PendingIsNamed(q: Queue, name: string)
    requires Good(q) && name in q.pending
    ensures NamedFile(name, q.pending[name])
  {}

  lemma NoneDiscarded(q: Queue, t: Queue, order: seq<string>)
    ensures Discards(q, t, order, 0)
  {}

  lemma ApprovedLater(q: Queue, u: Queue, name: string, archive: ArchiveName, order: seq<string>, k: int)
    requires name in q.pending && q.pending[name].Garbage? && u == Discarded(q, name, archive)
    requires 0 < k < |order| && Approved(q, order[k]) && forall j :: 0 <= j < k ==> !Approved(q, order[j])
    ensures Approved(u, order[1..][k - 1]) && forall j :: 0 <= j < k - 1 ==> !Approved(u, order[1..][j])
  {
    forall j | 0 <= j < k - 1 ensures !Approved(u, order[1..][j]) {
      assert order[1..][j] == order[j + 1] && !Approved(q, order[j + 1]);
    }
  }

  lemma DiscardingFirst(q: Queue, name: string, rest: seq<Op>)
    ensures All(q, DiscardOps(q, name) + rest) == All(All(q, DiscardOps(q, name)), rest)
  {
    hide Applied, FailureOps;
    PerformedConcat(q, DiscardOps(q, name), rest, |DiscardOps(q, name) + rest|);
    PerformedEnough(q, DiscardOps(q, name), |DiscardOps(q, name) + rest|);
  }

  lemma DiscardingLands(q: Queue, u: Queue, t: Queue, name: string, archive: ArchiveName, chosen: string, outcome: Outcome)
    requires name in q.pending && q.pending[name].Garbage? && u == Discarded(q, name, archive)
    requires chosen in q.pending && q.pending[chosen].Job? && chosen in u.pending && Lands(u, t, chosen, outcome)
    ensures Lands(q, t, chosen, outcome)
  {}

  lemma NoneApprovedLater(q: Queue, u: Queue, name: string, archive: ArchiveName, order: seq<string>)
    requires name in q.pending && q.pending[name].Garbage? && u == Discarded(q, name, archive)
    requires order != [] && forall j :: 0 <= j < |order| ==> !Approved(q, order[j])
    ensures forall j :: 0 <= j < |order| - 1 ==> !Approved(u, order[1..][j])
    ensures u.completed == q.completed && u.ran == q.ran && u.staging == q.staging
  {
    forall j | 0 <= j < |order| - 1 ensures !Approved(u, order[1..][j]) {
      assert order[1..][j] == order[j + 1] && !Approved(q, order[j + 1]);
    }
  }

  lemma PassingOn(q: Queue, order: seq<string>, outcome: Outcome)
    requires order != [] && !Approved(q, order[0])
    ensures
      ProcessOps(q, order, outcome) ==
        if order[0] in q.pending && q.pending[order[0]].Garbage?
        then DiscardOps(q, order[0]) + ProcessOps(All(q, DiscardOps(q, order[0])), order[1..], outcome)
        else ProcessOps(q, order[1..], outcome)
  {
    hide FailureOps, Applied, Performed;
  }

  ghost predicate Idles(q: Queue, t: Queue, order: seq<string>) {
    && Waits(q, t, {}) && Discards(q, t, order, |order|)
    && t.completed == q.completed && t.ran == q.ran && t.staging == q.staging
  }

  lemma IdlesAfterDiscarding(q: Queue, u: Queue, t: Queue, name: string, archive: ArchiveName, order: seq<string>)
    requires name in q.pending && q.pending[name].Garbage? && u == Discarded(q, name, archive) && archive !in q.failed
    requires order != [] && order[0] == name && Idles(u, t, order[1..])
    ensures Idles(q, t, order)
  {
    hide Waits, Discards;
    DiscardingWaits(q, u, t, name, archive, {}, order, |order|);
  }

  /** A listing without an approved job leaves every job where it was, runs nothing and completes nothing. */
  lemma {:induction false} IdleDecides(q: Queue, order: seq<string>, outcome: Outcome)
    requires Good(q) && forall j :: 0 <= j < |order| ==> !Approved(q, order[j])
    ensures Idles(q, All(q, ProcessOps(q, order, outcome)), order)
    decreases |order|
  {
    if order == [] {
      AllNone(q);
      hide Good;
    } else {
      hide *;
      var name := order[0];
      PassingOn(q, order, outcome);
      if name in q.pending && q.pending[name].Garbage? {
        var archive := DiscardingEnds(q, name);
        var u := All(q, DiscardOps(q, name));
        NoneApprovedLater(q, u, name, archive, order);
        IdleDecides(u, order[1..], outcome);
        DiscardingFirst(q, name, ProcessOps(u, order[1..], outcome));
        IdlesAfterDiscarding(q, u, All(q, ProcessOps(q, order, outcome)), name, archive, order);
      } else {
        assert forall j :: 0 <= j < |order| - 1 ==> order[1..][j] == order[j + 1];
        IdleDecides(q, order[1..], outcome);
        SkippingIdles(q, All(q, ProcessOps(q, order, outcome)), order);
      }
    }
  }

  lemma SkippingIdles(q: Queue, t: Queue, order: seq<string>)
    requires order != [] && Idles(q, t, order[1..]) && !(order[0] in q.pending && q.pending[order[0]].Garbage?)
    ensures Idles(q, t, order)
  {
    hide Waits, Discards;
    SkippingDiscards(q, t, order, |order|);
  }

  // ---- recovery ----

  /** What recovery does not touch. */
  ghost predicate Untouched(q: Queue, t: Queue) {
    && t.pending == q.pending && t.completed == q.completed && t.ledger == q.ledger && t.claims == q.claims && t.ran == q.ran
    && forall archive :: archive in q.failed ==> archive in t.failed && t.failed[archive] == q.failed[archive]
  }

  lemma {:induction false} InterruptedAreFailed(q: Queue, names: seq<string>)
    requires Good(q) && Listed(q, names)
    ensures
      var t := All(q, InterruptedOps(q, names));
      Untouched(q, t) && forall name :: name in names ==> NewlyFailed(q, t, q.running[name])
    decreases |names|
  {
    hide Good, FailureOps, GoodTokens;
    if names == [] {
      AllNone(q);
    } else {
      var name, t := names[0], All(q, InterruptedOps(q, names));
      assert name !in q.pending by { RunningIsApart(q, name); }
      GoodHasTokens(q);
      FailureFits(q, name);
      FreshArchive(q, name);
      var ops := FailureOps(q, name, name);
      PerformedKeepsGood(q, ops, |ops|);
      var u, archive := All(q, ops), FailedName(q, name, q.tokens);
      assert Listed(u, names[1..]);
      InterruptedAreFailed(u, names[1..]);
      InterruptedFits(q, names);
      InterruptedFits(u, names[1..]);
      AllFitConcat(q, ops, InterruptedOps(u, names[1..]));
      hide All, AllFit, FailedName;
      FailedLater(q, u, t, name, archive, names);
    }
  }

  lemma RunningIsApart(q: Queue, name: string)
    requires Good(q) && name in q.running
    ensures name !in q.pending
  {}

  lemma FailedLater(q: Queue, u: Queue, t: Queue, name: string, archive: ArchiveName, names: seq<string>)
    requires name in q.running && archive !in q.failed && u == Archived(q, name, archive) && Listed(q, names) && names != [] && names[0] == name
    requires Untouched(u, t) && forall n :: n in names[1..] ==> n in u.running && NewlyFailed(u, t, u.running[n])
    ensures Untouched(q, t) && forall n :: n in names ==> NewlyFailed(q, t, q.running[n])
  {
    assert archive in u.failed && u.failed[archive] == Some(q.running[name]);
    assert NewlyFailed(q, t, q.running[name]) by { assert archive in t.failed && t.failed[archive] == Some(q.running[name]); }
    forall n | n in names ensures NewlyFailed(q, t, q.running[n]) {
      if n != name {
        assert n in names[1..] && u.running[n] == q.running[n];
      }
    }
  }

  /** Each of these staging directories is a failed archive now, with what it held. */
  predicate StagedIn(q: Queue, t: Queue, tokens: seq<nat>) {
    forall token :: token in tokens ==>
      token in q.staging && FromStaging(token) !in q.failed && FromStaging(token) in t.failed && t.failed[FromStaging(token)] == q.staging[token]
  }

  predicate Staged(q: Queue, tokens: seq<nat>) { Distinct(tokens) && forall token :: token in tokens ==> token in q.staging }

  lemma {:induction false} StagedAreFailed(q: Queue, tokens: seq<nat>)
    requires GoodTokens(q) && Staged(q, tokens)
    ensures Untouched(q, All(q, StagingOps(tokens))) && StagedIn(q, All(q, StagingOps(tokens)), tokens)
    decreases |tokens|
  {
    if tokens == [] {
      AllNone(q);
    } else {
      var op := Fail(tokens[0], FromStaging(tokens[0]));
      var next := Applied(q, op);
      StagingFits(q, tokens);
      NextStaged(q, tokens);
      AllOne(q, op);
      StagingOpFits(q, tokens);
      hide *;
      StagedFacts(next, tokens[1..]);
      StagingFits(next, tokens[1..]);
      StagedAreFailed(next, tokens[1..]);
      StagingFirst(q, tokens);
      StagedLater(q, All(q, StagingOps(tokens)), tokens);
    }
  }

  lemma StagedFacts(q: Queue, tokens: seq<nat>)
    requires Staged(q, tokens)
    ensures Distinct(tokens) && forall token :: token in tokens ==> token in q.staging
  {}

  lemma StagingFirst(q: Queue, tokens: seq<nat>)
    requires tokens != []
    ensures All(q, StagingOps(tokens)) == All(Applied(q, Fail(tokens[0], FromStaging(tokens[0]))), StagingOps(tokens[1..]))
  {
    hide Applied;
    var op := Fail(tokens[0], FromStaging(tokens[0]));
    assert ([op] + StagingOps(tokens[1..]))[1..] == StagingOps(tokens[1..]);
  }

  lemma NextStaged(q: Queue, tokens: seq<nat>)
    requires GoodTokens(q) && Staged(q, tokens) && tokens != []
    ensures
      var next := Applied(q, Fail(tokens[0], FromStaging(tokens[0])));
      GoodTokens(next) && Staged(next, tokens[1..])
  {
    assert tokens[0] in tokens;
    var next := Applied(q, Fail(tokens[0], FromStaging(tokens[0])));
    forall token | token in tokens[1..] ensures token in next.staging {
      assert token in tokens;
      var i :| 0 <= i < |tokens[1..]| && tokens[1..][i] == token;
      assert tokens[i + 1] == token && tokens[0] != tokens[i + 1];
    }
  }

  lemma StagedLater(q: Queue, t: Queue, tokens: seq<nat>)
    requires GoodTokens(q) && Staged(q, tokens) && tokens != []
    requires
      var next := Applied(q, Fail(tokens[0], FromStaging(tokens[0])));
      Untouched(next, t) && StagedIn(next, t, tokens[1..])
    ensures Untouched(q, t) && StagedIn(q, t, tokens)
  {
    assert tokens[0] in tokens;
    assert FromStaging(tokens[0]) !in q.failed by { assert !Spent(q, tokens[0]); }
    forall token | token in tokens
      ensures token in q.staging && FromStaging(token) !in q.failed && FromStaging(token) in t.failed && t.failed[FromStaging(token)] == q.staging[token]
    {
      assert !Spent(q, token);
      if token != tokens[0] {
        assert token in tokens[1..];
      }
    }
  }

  lemma StagingOpFits(q: Queue, tokens: seq<nat>)
    requires AllFit(q, StagingOps(tokens)) && tokens != []
    ensures AllFit(q, [Fail(tokens[0], FromStaging(tokens[0]))])
  {
    AllOne(q, Fail(tokens[0], FromStaging(tokens[0])));
    assert StagingOps(tokens)[0] == Fail(tokens[0], FromStaging(tokens[0]));
    hide Fits;
  }

  /**
   A finished recovery archives every running job it lists in a new failed archive with its file, and every staging
   directory it lists in a failed archive named after it with whatever job file it held; waiting jobs, completed
   archives and earlier failed ones stay as they are.
   */
  lemma RecoveryDecides(q: Queue, names: seq<string>, tokens: seq<nat>)
    requires Good(q) && Listed(q, names) && Distinct(tokens) && forall token :: token in tokens ==> token in q.staging
    ensures
      var t := All(q, RecoverOps(q, names, tokens));
      && Untouched(q, t) && (forall name :: name in names ==> NewlyFailed(q, t, q.running[name]))
      && forall token :: token in tokens ==>
        FromStaging(token) !in q.failed && FromStaging(token) in t.failed && t.failed[FromStaging(token)] == q.staging[token]
  {
    InterruptedFits(q, names);
    InterruptedAreFailed(q, names);
    var u := All(q, InterruptedOps(q, names));
    GoodHasTokens(u);
    hide Good, GoodTokens, InterruptedOps, All, StagingOps;
    StagingFits(u, tokens);
    StagedAreFailed(u, tokens);
    AllFitConcat(q, InterruptedOps(q, names), StagingOps(tokens));
  }
}
/** What the host's queue keeps through every pass and every crash point. */
module HostQueueSafety {
  import opened Outcomes
  import opened HostQueue

  // ---- the invariant ----

  /** A claimed job's file is still running, being archived, or archived. */
  ghost predicate Held(q: Queue, c: Claim) {
    || (c.name in q.running && q.running[c.name] == c.file)
    || (exists token :: token in q.staging && q.staging[token] == Some(c.file))
    || (exists id :: id in q.completed && q.completed[id] == Some(c.file))
    || (exists archive :: archive in q.failed && q.failed[archive] == Some(c.file))
  }

  predicate Spent(q: Queue, token: nat) { token < q.tokens && token !in q.staging }

  /** Tokens in use were drawn, and those in archive names are not in staging any more. */
  predicate GoodTokens(q: Queue) {
    && (forall token :: token in q.staging ==> token < q.tokens)
    && (forall archive :: archive in q.failed && !archive.Plain? ==> Spent(q, archive.token))
  }

  predicate GoodRuns(q: Queue) {
    && (forall i :: 0 <= i < |q.ran| ==> q.ran[i] < |q.claims|)
    && (forall i, j :: 0 <= i < j < |q.ran| ==> q.ran[i] < q.ran[j])
  }

  /** Queue files carry the id of the job in them, as the host's own writers name them. */
  predicate NamedFile(name: string, file: File) { file.Job? ==> file.id == name }

  /** No job waits or runs while an archive bears its name, and none does both. */
  predicate GoodNames(q: Queue) {
    && q.pending.Keys !! q.running.Keys
    && (forall name :: name in q.pending ==> NamedFile(name, q.pending[name]) && name !in q.completed && Plain(name) !in q.failed)
    && (forall name :: name in q.running ==> NamedFile(name, q.running[name]) && name !in q.completed && Plain(name) !in q.failed)
  }

  predicate Idle(q: Queue, name: string) { name !in q.pending && name !in q.running }

  ghost predicate Good(q: Queue) {
    && GoodNames(q) && GoodTokens(q) && GoodRuns(q)
    && forall i :: 0 <= i < |q.claims| ==> Held(q, q.claims[i])
  }

  predicate Extends(a: map<string, File>, b: map<string, File>) {
    forall id :: id in a ==> id in b && b[id] == a[id]
  }

  /** When an operation is safe. */
  ghost predicate Fits(q: Queue, op: Op) {
    match op
    case WritePending(name, file) => name !in q.running && NamedFile(name, file) && (name in q.pending || !Exists(q, name))
    case Import(file) => file.Job? && file.id !in q.ledger && !Exists(q, file.id)
    case NoteConflict(_, token) => token == q.tokens
    case SaveLedger(ledger) => Extends(q.ledger, ledger)
    case MoveToRunning(name) => name in q.pending
    case HandToRunner => q.claims != [] && (q.ran == [] || q.ran[|q.ran| - 1] < |q.claims| - 1)
    case OpenStaging(token) => token == q.tokens
    case CopyToStaging(name, token) => name in q.running && token in q.staging && q.staging[token] == None
    case MoveToStaging(name, token) => name in q.running && token in q.staging && q.staging[token] == None
    case DropRunning(name) => name in q.running && exists token :: token in q.staging && q.staging[token] == Some(q.running[name])
    case Complete(token, id) => token in q.staging && id !in q.completed && Idle(q, id)
    case Fail(token, archive) =>
      token in q.staging && archive !in q.failed && if archive.Plain? then Idle(q, archive.id) else archive.token == token
  }

  lemma AppliedKeepsHeld(q: Queue, op: Op, c: Claim)
    requires Good(q) && Fits(q, op) && Held(q, c)
    ensures Held(Applied(q, op), c)
  {
    if c.name in q.running && q.running[c.name] == c.file {
      RunningIsHeld(q, op, c);
    } else if token :| token in q.staging && q.staging[token] == Some(c.file) {
      StagedIsHeld(q, op, c, token);
    } else {
      ArchivedIsHeld(q, op, c);
    }
  }

  lemma RunningIsHeld(q: Queue, op: Op, c: Claim)
    requires GoodNames(q) && Fits(q, op) && c.name in q.running && q.running[c.name] == c.file
    ensures Held(Applied(q, op), c)
  {
    var t := Applied(q, op);
    match op
    case MoveToStaging(name, token) =>
      if name == c.name {
        assert t.staging[token] == Some(c.file);
      }
    case DropRunning(name) =>
      if name == c.name {
        var token :| token in q.staging && q.staging[token] == Some(q.running[name]);
        assert t.staging[token] == Some(c.file);
      }
    case _ => assert c.name in t.running && t.running[c.name] == c.file;
  }

  lemma ArchivedIsHeld(q: Queue, op: Op, c: Claim)
    requires GoodTokens(q) && Fits(q, op)
    requires (exists id :: id in q.completed && q.completed[id] == Some(c.file))
             || exists archive :: archive in q.failed && q.failed[archive] == Some(c.file)
    ensures Held(Applied(q, op), c)
  {
    var t := Applied(q, op);
    if id :| id in q.completed && q.completed[id] == Some(c.file) {
      assert id in t.completed && t.completed[id] == Some(c.file);
    } else {
      var archive :| archive in q.failed && q.failed[archive] == Some(c.file);
      assert archive in t.failed && t.failed[archive] == Some(c.file);
    }
  }

  lemma StagedIsHeld(q: Queue, op: Op, c: Claim, token: nat)
    requires GoodTokens(q) && Fits(q, op) && token in q.staging && q.staging[token] == Some(c.file)
    ensures Held(Applied(q, op), c)
  {
    var t := Applied(q, op);
    match op
    case Complete(other, id) =>
      if other == token {
        assert t.completed[id] == Some(c.file);
      } else {
        assert token in t.staging && t.staging[token] == Some(c.file);
      }
    case Fail(other, archive) =>
      if other == token {
        assert t.failed[archive] == Some(c.file);
      } else {
        assert token in t.staging && t.staging[token] == Some(c.file);
      }
    case _ => assert token in t.staging && t.staging[token] == Some(c.file);
  }

  lemma AppliedKeepsNames(q: Queue, op: Op)
    requires GoodNames(q) && Fits(q, op)
    ensures GoodNames(Applied(q, op))
  {}

  lemma AppliedKeepsTokens(q: Queue, op: Op)
    requires GoodTokens(q) && Fits(q, op)
    ensures GoodTokens(Applied(q, op))
  {
    hide GoodNames, Exists;
  }

  lemma AppliedKeepsRuns(q: Queue, op: Op)
    requires GoodRuns(q) && Fits(q, op)
    ensures GoodRuns(Applied(q, op))
    ensures Applied(q, op).claims == q.claims || (op.MoveToRunning? && Applied(q, op).claims == q.claims + [Claim(op.name, q.pending[op.name])])
  {
    hide GoodNames, GoodTokens, Exists;
  }

  lemma AppliedKeepsGood(q: Queue, op: Op)
    requires Good(q) && Fits(q, op)
    ensures Good(Applied(q, op)) && Extends(q.ledger, Applied(q, op).ledger)
  {
    var t := Applied(q, op);
    AppliedKeepsNames(q, op);
    AppliedKeepsTokens(q, op);
    AppliedKeepsRuns(q, op);
    assert Extends(q.ledger, t.ledger);
    forall i | 0 <= i < |t.claims| ensures Held(t, t.claims[i]) {
      if i < |q.claims| {
        assert t.claims[i] == q.claims[i];
        AppliedKeepsHeld(q, op, q.claims[i]);
      } else {
        assert op.MoveToRunning? && t.claims[i] == Claim(op.name, q.pending[op.name]);
        assert op.name in t.running && t.running[op.name] == q.pending[op.name];
      }
    }
    hide Fits, GoodNames, GoodTokens, GoodRuns, Held, Applied;
  }

  // ---- sequences of operations ----

  ghost predicate AllFit(q: Queue, ops: seq<Op>)
    decreases |ops|
  {
    ops == [] || (Fits(q, ops[0]) && AllFit(Applied(q, ops[0]), ops[1..]))
  }

  lemma {:induction false} AllFitConcat(q: Queue, a: seq<Op>, b: seq<Op>)
    requires AllFit(q, a) && AllFit(All(q, a), b)
    ensures AllFit(q, a + b) && All(q, a + b) == All(All(q, a), b)
    decreases |a|
  {
    hide Fits, Applied;
    PerformedConcat(q, a, b, |a| + |b|);
    PerformedEnough(q, a, |a| + |b|);
    if a == [] {
      assert a + b == b;
    } else {
      assert (a + b)[0] == a[0] && (a + b)[1..] == a[1..] + b;
      AllFitConcat(Applied(q, a[0]), a[1..], b);
    }
  }

  lemma AllOne(q: Queue, op: Op)
    ensures All(q, [op]) == Applied(q, op)
    ensures Fits(q, op) ==> AllFit(q, [op])
  {
    hide Applied, Fits;
    assert [op][1..] == [];
    assert AllFit(Applied(q, op), []);
    assert Performed(Applied(q, op), [], 0) == Applied(q, op);
  }

  lemma AllNone(q: Queue)
    ensures All(q, []) == q && AllFit(q, [])
  {}

  lemma {:induction false} PerformedKeepsGood(q: Queue, ops: seq<Op>, budget: nat)
    requires Good(q) && AllFit(q, ops)
    ensures Good(Performed(q, ops, budget)) && Extends(q.ledger, Performed(q, ops, budget).ledger)
    decreases |ops|
  {
    hide Good, Fits, Applied;
    if ops != [] && budget > 0 {
      AppliedKeepsGood(q, ops[0]);
      PerformedKeepsGood(Applied(q, ops[0]), ops[1..], budget - 1);
    }
  }

  // ---- every pass performs only operations that fit ----

  lemma {:induction false} SyncFits(q: Queue, ledger: map<string, File>, feed: seq<File>)
    requires Extends(q.ledger, ledger)
    ensures AllFit(q, SyncOps(q, ledger, feed))
    decreases |feed|
  {
    if feed == [] {
      AllOne(q, SaveLedger(ledger));
    } else {
      var file := feed[0];
      if file.Garbage? || !file.approved {
        SyncFits(q, ledger, feed[1..]);
      } else if file.id in ledger {
        if ledger[file.id] != file {
          var op := NoteConflict(file.id, q.tokens);
          assert Fits(q, op);
          SyncFits(Applied(q, op), ledger, feed[1..]);
          FitsFirst(q, op, SyncOps(Applied(q, op), ledger, feed[1..]));
        } else {
          SyncFits(q, ledger, feed[1..]);
        }
      } else if Exists(q, file.id) {
        SyncFits(q, ledger[file.id := file], feed[1..]);
      } else {
        assert Fits(q, Import(file));
        SyncFits(Applied(q, Import(file)), ledger[file.id := file], feed[1..]);
        FitsFirst(q, Import(file), SyncOps(Applied(q, Import(file)), ledger[file.id := file], feed[1..]));
      }
    }
  }

  lemma FitsFirst(q: Queue, op: Op, ops: seq<Op>)
    requires Fits(q, op) && AllFit(Applied(q, op), ops)
    ensures AllFit(q, [op] + ops)
  {
    hide Fits, Applied;
    assert ([op] + ops)[0] == op && ([op] + ops)[1..] == ops;
  }

  lemma FreshArchive(q: Queue, id: string)
    requires GoodTokens(q)
    ensures FailedName(q, id, q.tokens) !in q.failed && q.tokens !in q.staging
  {
    assert Spent(q, q.tokens) ==> q.tokens < q.tokens;
  }

  /** The queue once a failed job is archived. */
  function Archived(q: Queue, name: string, archive: ArchiveName): Queue {
    q.(running := q.running - {name}, tokens := q.tokens + 1,
       failed := q.failed[archive := if name in q.running then Some(q.running[name]) else None])
  }

  lemma FailureOfRunning(q: Queue, name: string, archive: ArchiveName)
    requires name in q.running && name !in q.pending && q.tokens !in q.staging && archive !in q.failed
    requires if archive.Plain? then archive.id == name else archive.token == q.tokens
    ensures
      var ops := [OpenStaging(q.tokens)] + [MoveToStaging(name, q.tokens)] + [Fail(q.tokens, archive)];
      AllFit(q, ops) && All(q, ops) == Archived(q, name, archive)
  {
    hide Performed;
    var t := q.tokens;
    var a := Applied(q, OpenStaging(t));
    var b := Applied(a, MoveToStaging(name, t));
    AllOne(q, OpenStaging(t));
    AllOne(a, MoveToStaging(name, t));
    AllOne(b, Fail(t, archive));
    assert Fits(a, MoveToStaging(name, t)) && Fits(b, Fail(t, archive));
    AllFitConcat(q, [OpenStaging(t)], [MoveToStaging(name, t)]);
    AllFitConcat(q, [OpenStaging(t)] + [MoveToStaging(name, t)], [Fail(t, archive)]);
    assert Applied(b, Fail(t, archive)) == Archived(q, name, archive) by {
      assert b.staging - {t} == q.staging;
    }
  }

  lemma FailureOfMissing(q: Queue, name: string, archive: ArchiveName)
    requires name !in q.running && name !in q.pending && q.tokens !in q.staging && archive !in q.failed
    requires if archive.Plain? then archive.id == name else archive.token == q.tokens
    ensures
      var ops := [OpenStaging(q.tokens)] + [Fail(q.tokens, archive)];
      AllFit(q, ops) && All(q, ops) == Archived(q, name, archive)
  {
    hide Performed;
    var t := q.tokens;
    var a := Applied(q, OpenStaging(t));
    AllOne(q, OpenStaging(t));
    AllOne(a, Fail(t, archive));
    AllFitConcat(q, [OpenStaging(t)], [Fail(t, archive)]);
    assert Applied(a, Fail(t, archive)) == Archived(q, name, archive) by {
      assert a.staging - {t} == q.staging && q.running - {name} == q.running;
    }
  }

  /** A failed job's file, if it is running, ends in a failed archive of its own; nothing else changes. */
  lemma FailureFits(q: Queue, name: string)
    requires GoodTokens(q) && name !in q.pending
    ensures AllFit(q, FailureOps(q, name, name))
    ensures All(q, FailureOps(q, name, name)) == Archived(q, name, FailedName(q, name, q.tokens))
  {
    FreshArchive(q, name);
    var archive := FailedName(q, name, q.tokens);
    assert if archive.Plain? then archive.id == name else archive.token == q.tokens;
    hide GoodTokens, FailedName, Fits, Applied, Archived, Performed;
    if name in q.running {
      FailureOfRunning(q, name, archive);
    } else {
      FailureOfMissing(q, name, archive);
      assert [OpenStaging(q.tokens)] + [] + [Fail(q.tokens, archive)] == [OpenStaging(q.tokens)] + [Fail(q.tokens, archive)];
    }
  }

  /** The queue once the job file is copied. */
  function Copied(q: Queue, name: string): Queue { Applied(Applied(q, OpenStaging(q.tokens)), CopyToStaging(name, q.tokens)) }

  lemma CopyKeepsTokens(q: Queue, name: string)
    requires GoodTokens(q) && name in q.running
    ensures
      var copied := Copied(q, name);
      && GoodTokens(copied) && GoodTokens(Applied(copied, DropRunning(name)))
      && copied.staging == q.staging[q.tokens := Some(q.running[name])] && copied.running == q.running && copied.completed == q.completed
  {
    var copied := Copied(q, name);
    assert copied.staging == q.staging[q.tokens := Some(q.running[name])];
    forall archive | archive in q.failed && !archive.Plain? ensures Spent(copied, archive.token) {
      assert Spent(q, archive.token);
    }
  }

  lemma CopyFits(q: Queue, name: string)
    requires GoodTokens(q) && name in q.running
    ensures
      var copied := Copied(q, name);
      && Fits(q, OpenStaging(q.tokens)) && Fits(Applied(q, OpenStaging(q.tokens)), CopyToStaging(name, q.tokens))
      && Fits(copied, DropRunning(name))
      && q.tokens in Applied(copied, DropRunning(name)).staging && Applied(copied, DropRunning(name)).completed == q.completed
      && copied.pending == q.pending && Applied(copied, DropRunning(name)).pending == q.pending && name !in Applied(copied, DropRunning(name)).running
  {
    CopyKeepsTokens(q, name);
    hide GoodTokens;
    var copied := Copied(q, name);
    assert q.tokens in copied.staging && copied.staging[q.tokens] == Some(copied.running[name]);
  }

  lemma CopiedState(q: Queue, name: string)
    requires GoodTokens(q) && name in q.running
    ensures
      var copy := CopyOps(name, q.tokens);
      var copied := Copied(q, name);
      var dropped := Applied(copied, DropRunning(name));
      && All(q, copy) == copied && GoodTokens(copied)
      && All(q, copy + [DropRunning(name)]) == dropped && GoodTokens(dropped)
      && AllFit(q, copy) && AllFit(q, copy + [DropRunning(name)])
      && q.tokens in dropped.staging && dropped.completed == q.completed
      && copied.pending == q.pending && dropped.pending == q.pending && name !in dropped.running
  {
    hide All, Performed, GoodTokens, Applied, Fits, AllFit;
    CopyKeepsTokens(q, name);
    CopyFits(q, name);
    var open, copy := OpenStaging(q.tokens), CopyToStaging(name, q.tokens);
    var copied := Copied(q, name);
    AllOne(q, open);
    AllOne(Applied(q, open), copy);
    AllFitConcat(q, [open], [copy]);
    assert CopyOps(name, q.tokens) == [open] + [copy];
    AllOne(copied, DropRunning(name));
    AllFitConcat(q, CopyOps(name, q.tokens), [DropRunning(name)]);
  }

  lemma SuccessFits(q: Queue, name: string, outcome: Outcome)
    requires GoodTokens(q) && name in q.running && name !in q.pending
    ensures AllFit(q, SuccessOps(q, name, name, outcome))
  {
    if name in q.completed {
      hide FailureOps, Applied, Fits;
      FailureFits(q, name);
    } else {
      CopiedState(q, name);
      var copy := CopyOps(name, q.tokens);
      var copied := Copied(q, name);
      var dropped := Applied(copied, DropRunning(name));
      assert Fits(dropped, Complete(q.tokens, name));
      hide FailureOps, Applied, Fits, GoodTokens, Performed, AllFit, CopyOps, Copied;
      if outcome.ArtifactsFail? {
        FailureFits(copied, name);
        AllFitConcat(q, copy, FailureOps(copied, name, name));
      } else if outcome.RenameFails? {
        FailureFits(dropped, name);
        AllFitConcat(q, copy + [DropRunning(name)], FailureOps(dropped, name, name));
      } else {
        AllOne(dropped, Complete(q.tokens, name));
        AllFitConcat(q, copy + [DropRunning(name)], [Complete(q.tokens, name)]);
      }
    }
  }

  lemma RunFits(q: Queue, name: string, outcome: Outcome)
    requires GoodTokens(q) && name in q.running && name !in q.pending && Fits(q, HandToRunner)
    ensures AllFit(q, RunOps(q, name, name, outcome))
  {
    hide FailureOps, SuccessOps;
    if outcome.SourceDrifts? {
      FailureFits(q, name);
    } else {
      var handed := Applied(q, HandToRunner);
      assert GoodTokens(handed);
      if outcome.RunnerFails? {
        FailureFits(handed, name);
        FitsFirst(q, HandToRunner, FailureOps(handed, name, name));
      } else {
        SuccessFits(handed, name, outcome);
        FitsFirst(q, HandToRunner, SuccessOps(handed, name, name, outcome));
      }
    }
  }

  lemma {:induction false} ProcessFits(q: Queue, order: seq<string>, outcome: Outcome)
    requires Good(q)
    ensures AllFit(q, ProcessOps(q, order, outcome))
    decreases |order|
  {
    hide FailureOps, RunOps, Held;
    if order == [] {
      AllNone(q);
    } else if order[0] !in q.pending {
      ProcessFits(q, order[1..], outcome);
    } else {
      var name, file := order[0], q.pending[order[0]];
      var claimed := Applied(q, MoveToRunning(name));
      AllOne(q, MoveToRunning(name));
      AppliedKeepsGood(q, MoveToRunning(name));
      match file
      case Garbage(_) =>
        FailureFits(claimed, name);
        AllFitConcat(q, [MoveToRunning(name)], FailureOps(claimed, name, name));
        var ops := [MoveToRunning(name)] + FailureOps(claimed, name, name);
        PerformedKeepsGood(q, ops, |ops|);
        ProcessFits(All(q, ops), order[1..], outcome);
        AllFitConcat(q, ops, ProcessOps(All(q, ops), order[1..], outcome));
      case Job(id, approved, _) =>
        if approved {
          assert Fits(claimed, HandToRunner) by { assert GoodRuns(q); }
          assert id == name;
          RunFits(claimed, name, outcome);
          FitsFirst(q, MoveToRunning(name), RunOps(claimed, name, id, outcome));
        } else {
          ProcessFits(q, order[1..], outcome);
        }
    }
  }

  predicate Listed(q: Queue, names: seq<string>) {
    && (forall i :: 0 <= i < |names| ==> names[i] in q.running)
    && (forall i, j :: 0 <= i < j < |names| ==> names[i] != names[j])
  }

  lemma {:induction false} InterruptedFits(q: Queue, names: seq<string>)
    requires Good(q) && Listed(q, names)
    ensures AllFit(q, InterruptedOps(q, names))
    ensures
      var t := All(q, InterruptedOps(q, names));
      Good(t) && t.staging == q.staging && t.running == map name | name in q.running && name !in names :: q.running[name]
    decreases |names|
  {
    if names == [] {
      AllNone(q);
      hide Good;
      assert q.running == map name | name in q.running && name !in names :: q.running[name];
    } else {
      assert names[0] in q.running && names[0] !in q.pending by { assert GoodNames(q); }
      hide FailureOps, Good, GoodTokens;
      GoodHasTokens(q);
      FailureFits(q, names[0]);
      var ops := FailureOps(q, names[0], names[0]);
      PerformedKeepsGood(q, ops, |ops|);
      InterruptedFits(All(q, ops), names[1..]);
      AllFitConcat(q, ops, InterruptedOps(All(q, ops), names[1..]));
      var rest := map name | name in All(q, ops).running && name !in names[1..] :: All(q, ops).running[name];
      assert rest == map name | name in q.running && name !in names :: q.running[name] by {
        assert forall name :: name in names <==> name == names[0] || name in names[1..];
      }
    }
  }

  lemma GoodHasTokens(q: Queue)
    requires Good(q)
    ensures GoodTokens(q)
  {}

  predicate Distinct(tokens: seq<nat>) { forall i, j :: 0 <= i < j < |tokens| ==> tokens[i] != tokens[j] }

  /** The staging directories left when these are gone. */
  function Unstaged(staging: map<nat, Option<File>>, tokens: seq<nat>): map<nat, Option<File>> {
    map token | token in staging && token !in tokens :: staging[token]
  }

  lemma FirstStagingFits(q: Queue, tokens: seq<nat>)
    requires GoodTokens(q) && Distinct(tokens) && tokens != [] && forall token :: token in tokens ==> token in q.staging
    ensures
      var op := Fail(tokens[0], FromStaging(tokens[0]));
      var next := Applied(q, op);
      && Fits(q, op) && GoodTokens(next) && next.running == q.running && Distinct(tokens[1..])
      && (forall token :: token in tokens[1..] ==> token in next.staging)
      && Unstaged(next.staging, tokens[1..]) == Unstaged(q.staging, tokens)
  {
    var op := Fail(tokens[0], FromStaging(tokens[0]));
    assert tokens[0] in tokens;
    assert FromStaging(tokens[0]) !in q.failed by { assert !Spent(q, tokens[0]); }
    var next := Applied(q, op);
    forall token | token in tokens[1..] ensures token in next.staging {
      assert token in tokens;
      var i :| 0 <= i < |tokens[1..]| && tokens[1..][i] == token;
      assert tokens[i + 1] == token && tokens[0] != tokens[i + 1];
    }
    assert forall token :: token in tokens <==> token == tokens[0] || token in tokens[1..];
  }

  lemma {:induction false} StagingFits(q: Queue, tokens: seq<nat>)
    requires GoodTokens(q) && Distinct(tokens) && forall token :: token in tokens ==> token in q.staging
    ensures AllFit(q, StagingOps(tokens))
    ensures
      var t := All(q, StagingOps(tokens));
      t.running == q.running && t.staging == Unstaged(q.staging, tokens)
    decreases |tokens|
  {
    if tokens == [] {
      AllNone(q);
      assert q.staging == Unstaged(q.staging, tokens);
    } else {
      var op := Fail(tokens[0], FromStaging(tokens[0]));
      FirstStagingFits(q, tokens);
      hide GoodTokens, Distinct, Fits, Applied, Unstaged, Performed;
      StagingFits(Applied(q, op), tokens[1..]);
      AllOne(q, op);
      AllFitConcat(q, [op], StagingOps(tokens[1..]));
    }
  }

  lemma RecoverFits(q: Queue, names: seq<string>, tokens: seq<nat>)
    requires Good(q) && Listed(q, names) && Distinct(tokens) && forall token :: token in tokens ==> token in q.staging
    ensures AllFit(q, RecoverOps(q, names, tokens))
    ensures
      var t := All(q, RecoverOps(q, names, tokens));
      && (forall name :: name in t.running ==> name !in names) && (forall token :: token in t.staging ==> token !in tokens)
      && t.running.Keys <= q.running.Keys && t.staging.Keys <= q.staging.Keys
  {
    InterruptedFits(q, names);
    var t := All(q, InterruptedOps(q, names));
    GoodHasTokens(t);
    hide Good, GoodTokens, InterruptedOps;
    StagingFits(t, tokens);
    AllFitConcat(q, InterruptedOps(q, names), StagingOps(tokens));
  }

  // ---- any history ----

  datatype Session =
    | Sync(feed: seq<File>, budget: nat)
    | Process(order: seq<string>, outcome: Outcome, budget: nat)
    | Recover(names: seq<string>, tokens: seq<nat>, budget: nat)
    | Place(name: string, file: File)

  /** A recovery lists files that exist; a file is placed under its job's name, which is new or still pending. */
  predicate Sensible(q: Queue, s: Session) {
    match s
    case Recover(names, tokens, _) => Listed(q, names) && Distinct(tokens) && forall token :: token in tokens ==> token in q.staging
    case Place(name, file) => NamedFile(name, file) && (name in q.pending || !Exists(q, name))
    case _ => true
  }

  function OpsOf(q: Queue, s: Session): seq<Op> {
    match s
    case Sync(feed, _) => SyncOps(q, q.ledger, feed)
    case Process(order, outcome, _) => ProcessOps(q, order, outcome)
    case Recover(names, tokens, _) => RecoverOps(q, names, tokens)
    case Place(name, file) => [WritePending(name, file)]
  }

  function BudgetOf(s: Session): nat { if s.Place? then 1 else s.budget }

  function AfterSession(q: Queue, s: Session): Queue { Performed(q, OpsOf(q, s), BudgetOf(s)) }

  predicate AllSensible(q: Queue, sessions: seq<Session>)
    decreases |sessions|
  {
    sessions == [] || (Sensible(q, sessions[0]) && AllSensible(AfterSession(q, sessions[0]), sessions[1..]))
  }

  function AfterSessions(q: Queue, sessions: seq<Session>): Queue
    decreases |sessions|
  {
    if sessions == [] then q else AfterSessions(AfterSession(q, sessions[0]), sessions[1..])
  }

  lemma SessionFits(q: Queue, s: Session)
    requires Good(q) && Sensible(q, s)
    ensures AllFit(q, OpsOf(q, s))
  {
    match s
    case Sync(feed, _) =>
      hide Good;
      SyncFits(q, q.ledger, feed);
    case Process(order, outcome, _) =>
      hide Good;
      ProcessFits(q, order, outcome);
    case Recover(names, tokens, _) =>
      hide Good;
      RecoverFits(q, names, tokens);
    case Place(name, file) =>
      assert name !in q.running by { assert GoodNames(q); }
      AllOne(q, WritePending(name, file));
  }

  lemma {:induction false} HistoryKeepsGood(q: Queue, sessions: seq<Session>)
    requires Good(q) && AllSensible(q, sessions)
    ensures Good(AfterSessions(q, sessions)) && Extends(q.ledger, AfterSessions(q, sessions).ledger)
    decreases |sessions|
  {
    hide Good, OpsOf, Sensible;
    if sessions != [] {
      SessionFits(q, sessions[0]);
      PerformedKeepsGood(q, OpsOf(q, sessions[0]), BudgetOf(sessions[0]));
      HistoryKeepsGood(AfterSession(q, sessions[0]), sessions[1..]);
    }
  }

  const EMPTY_QUEUE := Queue(map[], map[], map[], map[], map[], map[], [], [], 0)

  /**
   Through any history of syncs, passes, recoveries and placed files, each of which may die after any
   operation: every claimed job's file is in running, in staging or in an archive, and no claim was
   handed to the runner twice.
   */
  lemma ClaimsAreNeverLost(sessions: seq<Session>)
    requires AllSensible(EMPTY_QUEUE, sessions)
    ensures
      var q := AfterSessions(EMPTY_QUEUE, sessions);
      && (forall i :: 0 <= i < |q.claims| ==> Held(q, q.claims[i]))
      && (forall i, j :: 0 <= i < j < |q.ran| ==> q.ran[i] != q.ran[j])
  {
    assert Good(EMPTY_QUEUE);
    hide AfterSessions, AllSensible, Held;
    HistoryKeepsGood(EMPTY_QUEUE, sessions);
  }

  /** A finished recovery that saw every running job and every staging directory leaves neither. */
  lemma RecoveryEmpties(q: Queue, names: seq<string>, tokens: seq<nat>)
    requires Good(q) && Listed(q, names) && Distinct(tokens)
    requires (forall name :: name in q.running <==> name in names) && (forall token :: token in q.staging <==> token in tokens)
    ensures var t := All(q, RecoverOps(q, names, tokens)); t.running == map[] && t.staging == map[]
  {
    hide Good, RecoverOps, All;
    RecoverFits(q, names, tokens);
    var t := All(q, RecoverOps(q, names, tokens));
    assert t.running.Keys == {} && t.staging.Keys == {};
  }

  // ---- a feed job is imported once ----

  ghost predicate Imports(ops: seq<Op>, id: string) {
    exists i :: 0 <= i < |ops| && ops[i].Import? && ops[i].file.Job? && ops[i].file.id == id
  }

  lemma ImportsConcat(a: seq<Op>, b: seq<Op>, id: string)
    ensures Imports(a + b, id) <==> Imports(a, id) || Imports(b, id)
  {
    if i :| 0 <= i < |a| && a[i].Import? && a[i].file.Job? && a[i].file.id == id {
      assert (a + b)[i] == a[i];
    }
    if i :| 0 <= i < |b| && b[i].Import? && b[i].file.Job? && b[i].file.id == id {
      assert (a + b)[|a| + i] == b[i];
    }
  }

  /** A sync imports a job exactly when the feed lists it approved, the ledger does not know it, and it does not exist. */
  lemma {:induction false} SyncImports(q: Queue, ledger: map<string, File>, feed: seq<File>, id: string)
    ensures Imports(SyncOps(q, ledger, feed), id) <==>
      && id !in ledger && !Exists(q, id) && exists i :: 0 <= i < |feed| && feed[i].Job? && feed[i].approved && feed[i].id == id
    decreases |feed|
  {
    hide Exists, Applied;
    if feed != [] {
      var file := feed[0];
      FeedSplits(feed, id);
      ImportingExists(q, file, id);
      hide Imports;
      if file.Garbage? || !file.approved {
        SyncImports(q, ledger, feed[1..], id);
      } else if file.id in ledger {
        if ledger[file.id] != file {
          var op := NoteConflict(file.id, q.tokens);
          SyncImports(Applied(q, op), ledger, feed[1..], id);
          ImportsConcat([op], SyncOps(Applied(q, op), ledger, feed[1..]), id);
          ConflictImportsNothing(file.id, q.tokens, id);
        } else {
          SyncImports(q, ledger, feed[1..], id);
        }
      } else if Exists(q, file.id) {
        SyncImports(q, ledger[file.id := file], feed[1..], id);
      } else {
        SyncImports(Applied(q, Import(file)), ledger[file.id := file], feed[1..], id);
        ImportsConcat([Import(file)], SyncOps(Applied(q, Import(file)), ledger[file.id := file], feed[1..]), id);
        ImportsOne(file, id);
      }
    }
  }

  lemma ImportingExists(q: Queue, file: File, id: string)
    ensures file.Job? ==> (Exists(Applied(q, Import(file)), id) <==> Exists(q, id) || id == file.id)
    ensures file.Job? ==> (Exists(Applied(q, NoteConflict(file.id, q.tokens)), id) <==> Exists(q, id))
  {}

  lemma ImportsOne(file: File, id: string)
    requires file.Job?
    ensures Imports([Import(file)], id) <==> file.id == id
  {
    assert [Import(file)][0].file == file;
  }

  lemma ConflictImportsNothing(other: string, token: nat, id: string)
    ensures !Imports([NoteConflict(other, token)], id)
  {}

  lemma FeedSplits(feed: seq<File>, id: string)
    requires feed != []
    ensures (exists i :: 0 <= i < |feed| && feed[i].Job? && feed[i].approved && feed[i].id == id) <==>
      || (feed[0].Job? && feed[0].approved && feed[0].id == id)
      || (exists i :: 0 <= i < |feed[1..]| && feed[1..][i].Job? && feed[1..][i].approved && feed[1..][i].id == id)
  {
    if i :| 0 <= i < |feed| && feed[i].Job? && feed[i].approved && feed[i].id == id {
      if i > 0 {
        assert feed[1..][i - 1] == feed[i];
      }
    }
    if i :| 0 <= i < |feed[1..]| && feed[1..][i].Job? && feed[1..][i].approved && feed[1..][i].id == id {
      assert feed[i + 1] == feed[1..][i];
    }
  }

  /** A finished sync leaves every approved job of the feed in the ledger. */
  lemma {:induction false} FinishedSyncKnows(q: Queue, ledger: map<string, File>, feed: seq<File>, i: int)
    requires 0 <= i < |feed| && feed[i].Job? && feed[i].approved
    ensures feed[i].id in All(q, SyncOps(q, ledger, feed)).ledger
    decreases |feed|
  {
    SyncLedger(q, ledger, feed);
    FeedIsNoted(q, ledger, feed, i);
  }

  /** What the ledger in memory is when the feed has been read. */
  function Noted(q: Queue, ledger: map<string, File>, feed: seq<File>): map<string, File>
    decreases |feed|
  {
    if feed == [] then ledger
    else
      var file := feed[0];
      if file.Garbage? || !file.approved || file.id in ledger then Noted(q, ledger, feed[1..])
      else Noted(q, ledger[file.id := file], feed[1..])
  }

  lemma {:induction false} FeedIsNoted(q: Queue, ledger: map<string, File>, feed: seq<File>, i: int)
    requires 0 <= i < |feed| && feed[i].Job? && feed[i].approved
    ensures feed[i].id in Noted(q, ledger, feed)
    decreases |feed|
  {
    var next := if feed[0].Garbage? || !feed[0].approved || feed[0].id in ledger then ledger else ledger[feed[0].id := feed[0]];
    NotedExtends(q, next, feed[1..]);
    if i > 0 {
      FeedIsNoted(q, next, feed[1..], i - 1);
    }
  }

  lemma {:induction false} NotedExtends(q: Queue, ledger: map<string, File>, feed: seq<File>)
    ensures Extends(ledger, Noted(q, ledger, feed))
    decreases |feed|
  {
    if feed != [] {
      var next := if feed[0].Garbage? || !feed[0].approved || feed[0].id in ledger then ledger else ledger[feed[0].id := feed[0]];
      NotedExtends(q, next, feed[1..]);
    }
  }

  lemma {:induction false} NotedIgnoresQueue(p: Queue, q: Queue, ledger: map<string, File>, feed: seq<File>)
    ensures Noted(p, ledger, feed) == Noted(q, ledger, feed)
    decreases |feed|
  {
    if feed != [] {
      NotedIgnoresQueue(p, q, ledger, feed[1..]);
      if feed[0].Job? {
        NotedIgnoresQueue(p, q, ledger[feed[0].id := feed[0]], feed[1..]);
      }
    }
  }

  lemma {:induction false} SyncLedger(q: Queue, ledger: map<string, File>, feed: seq<File>)
    ensures All(q, SyncOps(q, ledger, feed)).ledger == Noted(q, ledger, feed)
    decreases |feed|, 0
  {
    if feed == [] {
      AllOne(q, SaveLedger(ledger));
    } else {
      var file := feed[0];
      if file.Garbage? || !file.approved {
        SyncLedger(q, ledger, feed[1..]);
      } else if file.id in ledger {
        if ledger[file.id] != file {
          SyncLedgerAfter(q, NoteConflict(file.id, q.tokens), ledger, feed[1..]);
        } else {
          SyncLedger(q, ledger, feed[1..]);
        }
      } else if Exists(q, file.id) {
        SyncLedger(q, ledger[file.id := file], feed[1..]);
      } else {
        SyncLedgerAfter(q, Import(file), ledger[file.id := file], feed[1..]);
      }
    }
  }

  lemma {:induction false} SyncLedgerAfter(q: Queue, op: Op, ledger: map<string, File>, feed: seq<File>)
    ensures All(q, [op] + SyncOps(Applied(q, op), ledger, feed)).ledger == Noted(q, ledger, feed)
    decreases |feed|, 1
  {
    var ops := SyncOps(Applied(q, op), ledger, feed);
    assert ([op] + ops)[0] == op && ([op] + ops)[1..] == ops;
    SyncLedger(Applied(q, op), ledger, feed);
    NotedIgnoresQueue(q, Applied(q, op), ledger, feed);
  }

  /** After one finished sync, no later sync imports a job of that feed again, whatever its content is then. */
  lemma FinishedSyncIsFinal(q: Queue, feed: seq<File>, i: int, sessions: seq<Session>, again: seq<File>)
    requires Good(q) && 0 <= i < |feed| && feed[i].Job? && feed[i].approved
    requires AllSensible(All(q, SyncOps(q, q.ledger, feed)), sessions)
    ensures
      var t := AfterSessions(All(q, SyncOps(q, q.ledger, feed)), sessions);
      !Imports(SyncOps(t, t.ledger, again), feed[i].id)
  {
    hide SyncOps, Good, AllSensible, AfterSessions, All;
    SyncFits(q, q.ledger, feed);
    var synced := All(q, SyncOps(q, q.ledger, feed));
    assert Good(synced) by { SyncKeepsGood(q, feed); }
    FinishedSyncKnows(q, q.ledger, feed, i);
    HistoryKeepsGood(synced, sessions);
    var t := AfterSessions(synced, sessions);
    SyncImports(t, t.ledger, again, feed[i].id);
  }

  lemma SyncKeepsGood(q: Queue, feed: seq<File>)
    requires Good(q)
    ensures Good(All(q, SyncOps(q, q.ledger, feed)))
  {
    hide Good, SyncOps;
    SyncFits(q, q.ledger, feed);
    PerformedKeepsGood(q, SyncOps(q, q.ledger, feed), |SyncOps(q, q.ledger, feed)|);
  }

  /**
   Before a sync has finished there is one way back: a job whose archiving died between leaving running
   and reaching its archive is recovered under another name, so the next sync imports and runs it again.
   */
  lemma UnfinishedSyncMayRepeat(file: File)
    requires file.Job? && file.approved
    ensures
      var dead := Performed(EMPTY_QUEUE, SyncOps(EMPTY_QUEUE, map[], [file]), 1);
      var cut := Performed(dead, ProcessOps(dead, [file.id], Succeeds), 5);
      var back := All(cut, RecoverOps(cut, [], [0]));
      && cut.claims == [Claim(file.id, file)] && cut.ran == [0]
      && Imports(SyncOps(back, back.ledger, [file]), file.id)
  {
    var dead := EMPTY_QUEUE.(pending := map[file.id := file]);
    assert [file][1..] == [];
    var sync := SyncOps(EMPTY_QUEUE, map[], [file]);
    assert sync[0] == Import(file);
    assert Performed(EMPTY_QUEUE, sync, 1) == dead by {
      assert Performed(Applied(EMPTY_QUEUE, Import(file)), sync[1..], 0) == Applied(EMPTY_QUEUE, Import(file));
    }
    CutShort(dead, file);
    var cut := Performed(dead, ProcessOps(dead, [file.id], Succeeds), 5);
    var back := All(cut, RecoverOps(cut, [], [0]));
    assert [0][1..] == [];
    assert RecoverOps(cut, [], [0]) == [Fail(0, FromStaging(0))];
    AllOne(cut, Fail(0, FromStaging(0)));
    assert !Exists(back, file.id) && file.id !in back.ledger;
    assert [file][0] == file;
    SyncImports(back, back.ledger, [file], file.id);
  }

  lemma CutShort(dead: Queue, file: File)
    requires file.Job? && file.approved && dead == EMPTY_QUEUE.(pending := map[file.id := file])
    ensures
      var cut := Performed(dead, ProcessOps(dead, [file.id], Succeeds), 5);
      cut == EMPTY_QUEUE.(staging := map[0 := Some(file)], claims := [Claim(file.id, file)], ran := [0], tokens := 1)
  {
    var name := file.id;
    var claimed := Applied(dead, MoveToRunning(name));
    var handed := Applied(claimed, HandToRunner);
    var staged := Applied(handed, OpenStaging(0));
    var copied := Applied(staged, CopyToStaging(name, 0));
    var dropped := Applied(copied, DropRunning(name));
    var ops := ProcessOps(dead, [name], Succeeds);
    assert [name][0] == name;
    assert ops == [MoveToRunning(name)] + ([HandToRunner] + (CopyOps(name, 0) + [DropRunning(name)] + [Complete(0, name)]));
    assert ops == [MoveToRunning(name), HandToRunner, OpenStaging(0), CopyToStaging(name, 0), DropRunning(name), Complete(0, name)];
    hide ProcessOps, Applied;
    PerformedFive(dead, ops);
    assert dropped.pending == map[] && dropped.running == map[] by { Emptied(dead, file); }
    assert dropped == EMPTY_QUEUE.(staging := map[0 := Some(file)], claims := [Claim(name, file)], ran := [0], tokens := 1) by { Emptied(dead, file); }
  }

  lemma Emptied(dead: Queue, file: File)
    requires file.Job? && dead == EMPTY_QUEUE.(pending := map[file.id := file])
    ensures
      var claimed := Applied(dead, MoveToRunning(file.id));
      var dropped := Applied(Copied(Applied(claimed, HandToRunner), file.id), DropRunning(file.id));
      dropped == EMPTY_QUEUE.(staging := map[0 := Some(file)], claims := [Claim(file.id, file)], ran := [0], tokens := 1)
  {
    assert map[file.id := file] - {file.id} == map[];
  }

  lemma PerformedFive(q: Queue, ops: seq<Op>)
    requires |ops| >= 5
    ensures Performed(q, ops, 5) == Applied(Applied(Applied(Applied(Applied(q, ops[0]), ops[1]), ops[2]), ops[3]), ops[4])
  {
    hide Applied;
    var a := Applied(q, ops[0]);
    var b := Applied(a, ops[1]);
    var c := Applied(b, ops[2]);
    var d := Applied(c, ops[3]);
    assert ops[1..][0] == ops[1] && ops[1..][1..] == ops[2..] && ops[2..][0] == ops[2] && ops[2..][1..] == ops[3..];
    assert ops[3..][0] == ops[3] && ops[3..][1..] == ops[4..] && ops[4..][0] == ops[4];
    assert Performed(q, ops, 5) == Performed(a, ops[1..], 4);
    assert Performed(a, ops[1..], 4) == Performed(b, ops[2..], 3);
    assert Performed(b, ops[2..], 3) == Performed(c, ops[3..], 2);
    assert Performed(c, ops[3..], 2) == Performed(d, ops[4..], 1);
    assert Performed(d, ops[4..], 1) == Performed(Applied(d, ops[4]), ops[4..][1..], 0);
  }

  // ---- a feed job that changed is noted ----

  ghost predicate Notes(ops: seq<Op>, id: string) { exists i :: 0 <= i < |ops| && ops[i].NoteConflict? && ops[i].id == id }

  /** The file a sync holds a job to: the ledger's, or else the first approved one of the feed. */
  function HeldTo(ledger: map<string, File>, feed: seq<File>, id: string): Option<File>
    decreases |feed|
  {
    if id in ledger then Some(ledger[id])
    else if feed == [] then None
    else if feed[0].Job? && feed[0].approved && feed[0].id == id then Some(feed[0])
    else HeldTo(ledger, feed[1..], id)
  }

  predicate Differs(f: File, id: string, known: Option<File>) { f.Job? && f.approved && f.id == id && Some(f) != known }

  lemma NotesConcat(a: seq<Op>, b: seq<Op>, id: string)
    ensures Notes(a + b, id) <==> Notes(a, id) || Notes(b, id)
  {
    if i :| 0 <= i < |a| && a[i].NoteConflict? && a[i].id == id {
      assert (a + b)[i] == a[i];
    }
    if i :| 0 <= i < |b| && b[i].NoteConflict? && b[i].id == id {
      assert (a + b)[|a| + i] == b[i];
    }
  }

  lemma NotesOne(op: Op, id: string)
    ensures Notes([op], id) <==> op.NoteConflict? && op.id == id
  {
    assert [op][0] == op;
  }

  lemma DiffersSplits(feed: seq<File>, id: string, known: Option<File>)
    requires feed != []
    ensures (exists i :: 0 <= i < |feed| && Differs(feed[i], id, known)) <==>
      Differs(feed[0], id, known) || exists i :: 0 <= i < |feed[1..]| && Differs(feed[1..][i], id, known)
  {
    hide Differs;
    if i :| 0 <= i < |feed| && Differs(feed[i], id, known) {
      if i > 0 {
        assert feed[1..][i - 1] == feed[i];
      }
    }
    if i :| 0 <= i < |feed[1..]| && Differs(feed[1..][i], id, known) {
      assert feed[i + 1] == feed[1..][i];
    }
  }

  lemma HeldToStays(ledger: map<string, File>, feed: seq<File>, id: string)
    requires feed != []
    ensures
      var file := feed[0];
      var next := if file.Job? && file.approved && file.id !in ledger then ledger[file.id := file] else ledger;
      HeldTo(next, feed[1..], id) == HeldTo(ledger, feed, id)
  {
    HeldToIgnores(ledger, feed, id);
  }

  lemma {:induction false} HeldToIgnores(ledger: map<string, File>, feed: seq<File>, id: string)
    requires feed != []
    ensures feed[0].Job? && feed[0].id != id ==> HeldTo(ledger[feed[0].id := feed[0]], feed[1..], id) == HeldTo(ledger, feed[1..], id)
  {
    if feed[0].Job? && feed[0].id != id {
      SameForOthers(ledger, ledger[feed[0].id := feed[0]], feed[1..], id);
    }
  }

  lemma {:induction false} SameForOthers(a: map<string, File>, b: map<string, File>, feed: seq<File>, id: string)
    requires (id in a <==> id in b) && (id in a ==> a[id] == b[id])
    ensures HeldTo(a, feed, id) == HeldTo(b, feed, id)
    decreases |feed|
  {
    if feed != [] {
      SameForOthers(a, b, feed[1..], id);
    }
  }

  /** A sync notes a conflict for a job exactly when the feed lists it, approved, as another file than it is held to. */
  lemma {:induction false} SyncNotes(q: Queue, ledger: map<string, File>, feed: seq<File>, id: string)
    ensures Notes(SyncOps(q, ledger, feed), id) <==> exists i :: 0 <= i < |feed| && Differs(feed[i], id, HeldTo(ledger, feed, id))
    decreases |feed|
  {
    hide Exists, Applied;
    if feed == [] {
      NotesOne(SaveLedger(ledger), id);
    } else {
      var file, known := feed[0], HeldTo(ledger, feed, id);
      DiffersSplits(feed, id, known);
      HeldToStays(ledger, feed, id);
      hide Notes;
      if file.Garbage? || !file.approved {
        SyncNotes(q, ledger, feed[1..], id);
      } else if file.id in ledger {
        var op := NoteConflict(file.id, q.tokens);
        SyncNotes(Applied(q, op), ledger, feed[1..], id);
        SyncNotes(q, ledger, feed[1..], id);
        NotesConcat([op], SyncOps(Applied(q, op), ledger, feed[1..]), id);
        NotesOne(op, id);
      } else if Exists(q, file.id) {
        SyncNotes(q, ledger[file.id := file], feed[1..], id);
      } else {
        SyncNotes(Applied(q, Import(file)), ledger[file.id := file], feed[1..], id);
        NotesConcat([Import(file)], SyncOps(Applied(q, Import(file)), ledger[file.id := file], feed[1..]), id);
        NotesOne(Import(file), id);
      }
    }
  }
}

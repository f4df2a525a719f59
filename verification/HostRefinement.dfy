/** The host's queue directories do to refill's jobs only what refill assumes a host does. */
module HostRefinement {
  import opened Outcomes
  import opened HostQueue
  import opened HostQueueSafety
  import RefillDispatch

  /** Which refill job a job id names; ids are injective. */
  type Naming = string -> RefillDispatch.Job

  ghost predicate Injective(naming: Naming) { forall a, b :: naming(a) == naming(b) ==> a == b }

  function Queued(q: Queue): set<string> { q.pending.Keys + q.running.Keys }

  function ArchivedIds(q: Queue): set<string> { q.completed.Keys + set archive | archive in q.failed && archive.Plain? :: archive.id }

  /** What refill sees of the queue. */
  function Seen(q: Queue, g: RefillDispatch.Generation, feed: set<RefillDispatch.Job>, naming: Naming): RefillDispatch.World {
    RefillDispatch.World(g, feed, set name | name in Queued(q) :: naming(name), set id | id in ArchivedIds(q) :: naming(id))
  }

  /** Imports come from the feed, and files placed by hand under a new name are not refill jobs. */
  predicate Sourced(q: Queue, op: Op, feed: set<RefillDispatch.Job>, naming: Naming) {
    match op
    case Import(file) => file.Job? ==> naming(file.id) in feed
    case WritePending(name, _) => name in q.pending || naming(name).OtherJob?
    case _ => true
  }

  lemma OperationKeepsIds(q: Queue, op: Op)
    requires Good(q) && Fits(q, op)
    ensures
      var t := Applied(q, op);
      && ArchivedIds(q) <= ArchivedIds(t) && Queued(t) !! ArchivedIds(t)
      && forall name :: name in Queued(t) ==>
        || name in Queued(q)
        || (op.WritePending? && name == op.name && name !in q.pending)
        || (op.Import? && op.file.Job? && name == op.file.id && name !in ArchivedIds(q))
  {
    AppliedKeepsNames(q, op);
    hide GoodTokens, GoodRuns, Held;
    var t := Applied(q, op);
    forall id | id in ArchivedIds(q) ensures id in ArchivedIds(t) {
      if id in q.completed {
        assert id in t.completed;
      } else {
        assert Plain(id) in q.failed && Plain(id) in t.failed;
      }
    }
    forall name | name in Queued(t) ensures name !in ArchivedIds(t) {
      assert name in t.pending || name in t.running;
    }
  }

  lemma OperationIsHostStep(q: Queue, op: Op, g: RefillDispatch.Generation, feed: set<RefillDispatch.Job>, naming: Naming)
    requires Injective(naming) && Good(q) && Fits(q, op) && Sourced(q, op, feed, naming)
    ensures RefillDispatch.HostStep(Seen(q, g, feed, naming), Seen(Applied(q, op), g, feed, naming))
  {
    OperationKeepsIds(q, op);
    hide Good, Fits, Applied, Queued, ArchivedIds;
    var a, b := Seen(q, g, feed, naming), Seen(Applied(q, op), g, feed, naming);
    forall job | job in b.queued ensures job in a.queued || (job in a.feed && job !in a.archived) || job.OtherJob? {
      var name :| name in Queued(Applied(q, op)) && naming(name) == job;
      if name in Queued(q) {
        assert job in a.queued;
      }
    }
  }

  lemma HostStepsCompose(a: RefillDispatch.World, b: RefillDispatch.World, c: RefillDispatch.World)
    requires RefillDispatch.HostStep(a, b) && RefillDispatch.HostStep(b, c)
    ensures RefillDispatch.HostStep(a, c)
  {}

  lemma NothingIsHostStep(q: Queue, g: RefillDispatch.Generation, feed: set<RefillDispatch.Job>, naming: Naming)
    requires Injective(naming) && Good(q)
    ensures RefillDispatch.HostStep(Seen(q, g, feed, naming), Seen(q, g, feed, naming))
  {
    assert GoodNames(q);
    assert Queued(q) !! ArchivedIds(q);
  }

  predicate AllSourced(ops: seq<Op>, feed: set<RefillDispatch.Job>, naming: Naming) {
    forall i :: 0 <= i < |ops| ==> !ops[i].WritePending? && (ops[i].Import? && ops[i].file.Job? ==> naming(ops[i].file.id) in feed)
  }

  lemma {:induction false} OperationsAreHostStep(q: Queue, ops: seq<Op>, budget: nat, g: RefillDispatch.Generation,
                                                 feed: set<RefillDispatch.Job>, naming: Naming)
    requires Injective(naming) && Good(q) && AllFit(q, ops) && AllSourced(ops, feed, naming)
    ensures RefillDispatch.HostStep(Seen(q, g, feed, naming), Seen(Performed(q, ops, budget), g, feed, naming))
    decreases |ops|
  {
    hide Good, Fits, Applied, Seen, RefillDispatch.HostStep;
    if ops == [] || budget == 0 {
      NothingIsHostStep(q, g, feed, naming);
    } else {
      assert Sourced(q, ops[0], feed, naming);
      OperationIsHostStep(q, ops[0], g, feed, naming);
      AppliedKeepsGood(q, ops[0]);
      OperationsAreHostStep(Applied(q, ops[0]), ops[1..], budget - 1, g, feed, naming);
      HostStepsCompose(Seen(q, g, feed, naming), Seen(Applied(q, ops[0]), g, feed, naming),
                       Seen(Performed(Applied(q, ops[0]), ops[1..], budget - 1), g, feed, naming));
    }
  }

  // ---- where the operations of each pass come from ----

  lemma AllSourcedConcat(a: seq<Op>, b: seq<Op>, feed: set<RefillDispatch.Job>, naming: Naming)
    requires AllSourced(a, feed, naming) && AllSourced(b, feed, naming)
    ensures AllSourced(a + b, feed, naming)
  {}

  predicate Fed(files: seq<File>, feed: set<RefillDispatch.Job>, naming: Naming) {
    forall i :: 0 <= i < |files| && files[i].Job? && files[i].approved ==> naming(files[i].id) in feed
  }

  lemma {:induction false} SyncIsSourced(q: Queue, ledger: map<string, File>, files: seq<File>, feed: set<RefillDispatch.Job>, naming: Naming)
    requires Fed(files, feed, naming)
    ensures AllSourced(SyncOps(q, ledger, files), feed, naming)
    decreases |files|
  {
    hide Applied, Exists;
    if files != [] {
      var file := files[0];
      assert Fed(files[1..], feed, naming);
      SyncIsSourced(q, ledger, files[1..], feed, naming);
      if file.Job? && file.approved {
        SyncIsSourced(q, ledger[file.id := file], files[1..], feed, naming);
        SyncIsSourced(Applied(q, NoteConflict(file.id, q.tokens)), ledger, files[1..], feed, naming);
        SyncIsSourced(Applied(q, Import(file)), ledger[file.id := file], files[1..], feed, naming);
        AllSourcedConcat([NoteConflict(file.id, q.tokens)], SyncOps(Applied(q, NoteConflict(file.id, q.tokens)), ledger, files[1..]), feed, naming);
        AllSourcedConcat([Import(file)], SyncOps(Applied(q, Import(file)), ledger[file.id := file], files[1..]), feed, naming);
      }
    }
  }

  lemma FailureIsSourced(q: Queue, name: string, id: string, feed: set<RefillDispatch.Job>, naming: Naming)
    ensures AllSourced(FailureOps(q, name, id), feed, naming)
  {}

  lemma RunIsSourced(q: Queue, name: string, id: string, outcome: Outcome, feed: set<RefillDispatch.Job>, naming: Naming)
    ensures AllSourced(RunOps(q, name, id, outcome), feed, naming)
  {
    hide Applied, FailedName, Performed;
  }

  lemma {:induction false} ProcessIsSourced(q: Queue, order: seq<string>, outcome: Outcome, feed: set<RefillDispatch.Job>, naming: Naming)
    ensures AllSourced(ProcessOps(q, order, outcome), feed, naming)
    decreases |order|
  {
    hide Applied, FailureOps, RunOps, Performed;
    if order != [] {
      ProcessIsSourced(q, order[1..], outcome, feed, naming);
      if order[0] in q.pending {
        var name := order[0];
        var claimed := Applied(q, MoveToRunning(name));
        var ops := [MoveToRunning(name)] + FailureOps(claimed, name, name);
        ProcessIsSourced(All(q, ops), order[1..], outcome, feed, naming);
        FailureIsSourced(claimed, name, name, feed, naming);
        AllSourcedConcat([MoveToRunning(name)], FailureOps(claimed, name, name), feed, naming);
        AllSourcedConcat(ops, ProcessOps(All(q, ops), order[1..], outcome), feed, naming);
        if q.pending[name].Job? {
          RunIsSourced(claimed, name, q.pending[name].id, outcome, feed, naming);
          AllSourcedConcat([MoveToRunning(name)], RunOps(claimed, name, q.pending[name].id, outcome), feed, naming);
        }
      }
    }
  }

  lemma {:induction false} RecoverIsSourced(q: Queue, names: seq<string>, tokens: seq<nat>, feed: set<RefillDispatch.Job>, naming: Naming)
    ensures AllSourced(RecoverOps(q, names, tokens), feed, naming)
    decreases |names|, |tokens|
  {
    hide Applied, FailureOps, Performed;
    if names != [] {
      var ops := FailureOps(q, names[0], names[0]);
      FailureIsSourced(q, names[0], names[0], feed, naming);
      RecoverIsSourced(All(q, ops), names[1..], tokens, feed, naming);
      AllSourcedConcat(ops, RecoverOps(All(q, ops), names[1..], tokens), feed, naming);
      assert RecoverOps(q, names, tokens) == ops + RecoverOps(All(q, ops), names[1..], tokens);
    } else if tokens != [] {
      RecoverIsSourced(q, names, tokens[1..], feed, naming);
      assert RecoverOps(q, names, tokens) == [Fail(tokens[0], FromStaging(tokens[0]))] + RecoverOps(q, names, tokens[1..]);
    }
  }

  /** The job files a session reads are the feed's, and what is placed by hand is not a refill job. */
  predicate Honest(q: Queue, s: Session, feed: set<RefillDispatch.Job>, naming: Naming) {
    match s
    case Sync(files, _) => Fed(files, feed, naming)
    case Place(name, _) => name in q.pending || naming(name).OtherJob?
    case _ => true
  }

  /**
   Every session of the host, wherever it dies, is a host step of the refill protocol: the assumption
   under which refill's dispatches are proved safe holds of the host's own queue.
   */
  lemma SessionIsHostStep(q: Queue, s: Session, g: RefillDispatch.Generation, feed: set<RefillDispatch.Job>, naming: Naming)
    requires Injective(naming) && Good(q) && Sensible(q, s) && Honest(q, s, feed, naming)
    ensures RefillDispatch.HostStep(Seen(q, g, feed, naming), Seen(AfterSession(q, s), g, feed, naming))
  {
    SessionFits(q, s);
    hide Good, SyncOps, ProcessOps, RecoverOps, RefillDispatch.HostStep, Seen;
    match s
    case Sync(files, budget) =>
      SyncIsSourced(q, q.ledger, files, feed, naming);
      OperationsAreHostStep(q, OpsOf(q, s), budget, g, feed, naming);
    case Process(order, outcome, budget) =>
      ProcessIsSourced(q, order, outcome, feed, naming);
      OperationsAreHostStep(q, OpsOf(q, s), budget, g, feed, naming);
    case Recover(names, tokens, budget) =>
      RecoverIsSourced(q, names, tokens, feed, naming);
      OperationsAreHostStep(q, OpsOf(q, s), budget, g, feed, naming);
    case Place(name, file) =>
      OperationIsHostStep(q, WritePending(name, file), g, feed, naming);
      AllOne(q, WritePending(name, file));
  }
}

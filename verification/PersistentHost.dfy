/** The host that moves jobs through its queue directories and may die between any two renames. */
module PersistentHost {
  import opened Outcomes
  import opened HostQueue

  class Host {
    var pending: map<string, File>
    var running: map<string, File>
    var staging: map<nat, Option<File>>
    var completed: map<string, Option<File>>
    var failed: map<ArchiveName, Option<File>>
    var ledger: map<string, File>
    var claims: seq<Claim>
    var ran: seq<nat>
    var tokens: nat
    var budget: nat

    constructor (q: Queue, budget: nat)
      ensures Contents() == q && this.budget == budget
    {
      pending, running, staging, completed, failed := q.pending, q.running, q.staging, q.completed, q.failed;
      ledger, claims, ran, tokens := q.ledger, q.claims, q.ran, q.tokens;
      this.budget := budget;
    }

    function Contents(): Queue
      reads this
    {
      Queue(pending, running, staging, completed, failed, ledger, claims, ran, tokens)
    }

    predicate Exists(id: string)
      reads this
    {
      id in pending || id in running || id in completed || Plain(id) in failed
    }

    /** One durable operation on the directories, unless the process is dead by then. */
    method Do(op: Op) returns (alive: bool)
      modifies this
      ensures alive <==> old(budget) > 0
      ensures Contents() == Performed(old(Contents()), [op], old(budget))
      ensures budget == if alive then old(budget) - 1 else 0
    {
      hide Applied;
      assert [op][1..] == [];
      if budget == 0 {
        return false;
      }
      budget := budget - 1;
      if QueueingOp(op) {
        Queueing(op);
      } else {
        Archiving(op);
      }
      alive := true;
    }

    predicate QueueingOp(op: Op) {
      op.WritePending? || op.Import? || op.NoteConflict? || op.SaveLedger? || op.MoveToRunning? || op.HandToRunner?
    }

    method Queueing(op: Op)
      requires QueueingOp(op)
      modifies this`pending, this`running, this`failed, this`ledger, this`claims, this`ran, this`tokens
      ensures Contents() == Applied(old(Contents()), op)
    {
      match op {
        case WritePending(name, file) => pending := pending[name := file];
        case Import(file) =>
          if file.Job? {
            pending := pending[file.id := file];
          }
        case NoteConflict(id, token) => failed, tokens := failed[Conflict(id, token) := None], tokens + 1;
        case SaveLedger(entries) => ledger := entries;
        case MoveToRunning(name) =>
          if name in pending {
            running, claims := running[name := pending[name]], claims + [Claim(name, pending[name])];
            pending := pending - {name};
          }
        case HandToRunner =>
          if claims != [] {
            ran := ran + [|claims| - 1];
          }
      }
    }

    method Archiving(op: Op)
      requires !QueueingOp(op)
      modifies this`running, this`staging, this`completed, this`failed, this`tokens
      ensures Contents() == Applied(old(Contents()), op)
    {
      match op {
        case OpenStaging(token) => staging, tokens := staging[token := None], tokens + 1;
        case CopyToStaging(name, token) =>
          if name in running {
            staging := staging[token := Some(running[name])];
          }
        case MoveToStaging(name, token) =>
          if name in running {
            staging := staging[token := Some(running[name])];
            running := running - {name};
          }
        case DropRunning(name) => running := running - {name};
        case Complete(token, id) =>
          if token in staging {
            completed := completed[id := staging[token]];
            staging := staging - {token};
          }
        case Fail(token, archive) =>
          if token in staging {
            failed := failed[archive := staging[token]];
            staging := staging - {token};
          }
      }
    }

    /** Performs the operations one after the other. */
    method DoAll(ops: seq<Op>) returns (alive: bool)
      modifies this
      ensures alive <==> |ops| <= old(budget)
      ensures Contents() == Performed(old(Contents()), ops, old(budget))
      ensures budget == if alive then old(budget) - |ops| else 0
    {
      hide Applied;
      ghost var start, full := Contents(), budget;
      NothingPerformed(start, full);
      for i := 0 to |ops|
        invariant budget == full - i
        invariant Contents() == Performed(start, ops[..i], full)
      {
        assert ops[..i + 1] == ops[..i] + [ops[i]];
        PerformedConcat(start, ops[..i], [ops[i]], full);
        var more := Do(ops[i]);
        if !more {
          assert ops == ops[..i + 1] + ops[i + 1..];
          PerformedConcat(start, ops[..i + 1], ops[i + 1..], full);
          NothingPerformed(Contents(), 0);
          return false;
        }
      }
      assert ops[..|ops|] == ops;
      alive := true;
    }

    method ArchiveFailure(name: string, id: string) returns (alive: bool)
      modifies this
      ensures
        var ops := FailureOps(old(Contents()), name, id);
        && (alive <==> |ops| <= old(budget)) && Contents() == Performed(old(Contents()), ops, old(budget))
        && budget == if alive then old(budget) - |ops| else 0
    {
      hide Performed, Applied;
      var archive := if Plain(id) in failed then Suffixed(id, tokens) else Plain(id);
      alive := DoAll([OpenStaging(tokens)] + (if name in running then [MoveToStaging(name, tokens)] else []) + [Fail(tokens, archive)]);
    }

    /** From `start`, with `full` operations left to live, exactly these operations were performed. */
    ghost predicate Ran(start: Queue, full: nat, ops: seq<Op>, alive: bool)
      reads this
    {
      && (alive <==> |ops| <= full) && Contents() == Performed(start, ops, full)
      && budget == if alive then full - |ops| else 0
    }

    /** Performing `rest` from here is performing `ops` from `start`. */
    ghost predicate Continues(start: Queue, full: nat, ops: seq<Op>, rest: seq<Op>)
      reads this
    {
      && Performed(start, ops, full) == Performed(Contents(), rest, budget)
      && (|ops| <= full <==> |rest| <= budget) && (|ops| <= full ==> full - |ops| == budget - |rest|)
    }

    method ArchiveSuccess(name: string, id: string, outcome: Outcome) returns (alive: bool)
      modifies this
      ensures Ran(old(Contents()), old(budget), SuccessOps(old(Contents()), name, id, outcome), alive)
    {
      hide Performed, Applied, FailureOps, CopyOps;
      ghost var start, full := Contents(), budget;
      if id in completed {
        alive := ArchiveFailure(name, id);
        return;
      }
      var copy, token := CopyOps(name, tokens), tokens;
      alive := DoAll(copy);
      Sequence(start, full, copy, FailureOps(All(start, copy), name, id));
      Sequence(start, full, copy, [DropRunning(name)]);
      if outcome.ArtifactsFail? {
        if alive {
          alive := ArchiveFailure(name, id);
        }
        return;
      }
      var drop := [DropRunning(name)];
      Sequence(start, full, copy + drop, FailureOps(All(start, copy + drop), name, id));
      Sequence(start, full, copy + drop, [Complete(token, id)]);
      if alive {
        alive := DoAll(drop);
      }
      if alive {
        if outcome.RenameFails? {
          alive := ArchiveFailure(name, id);
        } else {
          alive := DoAll([Complete(token, id)]);
        }
      }
    }

    method RunClaimed(name: string, id: string, outcome: Outcome) returns (alive: bool)
      modifies this
      ensures Ran(old(Contents()), old(budget), RunOps(old(Contents()), name, id, outcome), alive)
    {
      hide Performed, Applied, FailureOps, SuccessOps;
      if outcome.SourceDrifts? {
        alive := ArchiveFailure(name, id);
        return;
      }
      ghost var start, full := Contents(), budget;
      ghost var handed := Applied(start, HandToRunner);
      AllIsApplied(start, HandToRunner);
      Sequence(start, full, [HandToRunner], FailureOps(handed, name, id));
      Sequence(start, full, [HandToRunner], SuccessOps(handed, name, id, outcome));
      alive := DoAll([HandToRunner]);
      if alive {
        if outcome.RunnerFails? {
          alive := ArchiveFailure(name, id);
        } else {
          alive := ArchiveSuccess(name, id, outcome);
        }
      }
    }

    /** Claims and processes the next approved job, taking the pending files in the order listed. */
    method ProcessOne(order: seq<string>, outcome: Outcome) returns (alive: bool)
      modifies this
      ensures Ran(old(Contents()), old(budget), ProcessOps(old(Contents()), order, outcome), alive)
    {
      hide Performed, Applied, FailureOps, RunOps;
      ghost var start, full, total := Contents(), budget, ProcessOps(Contents(), order, outcome);
      for i := 0 to |order|
        invariant Continues(start, full, total, ProcessOps(Contents(), order[i..], outcome))
      {
        var name := order[i];
        assert order[i..][0] == name && order[i..][1..] == order[i + 1..];
        if name in pending {
          var file := pending[name];
          ghost var here, left := Contents(), budget;
          ghost var claimed := Applied(here, MoveToRunning(name));
          AllIsApplied(here, MoveToRunning(name));
          match file {
            case Garbage(_) =>
              ghost var ops := [MoveToRunning(name)] + FailureOps(claimed, name, name);
              Sequence(here, left, [MoveToRunning(name)], FailureOps(claimed, name, name));
              Sequence(here, left, ops, ProcessOps(All(here, ops), order[i + 1..], outcome));
              alive := DoAll([MoveToRunning(name)]);
              if alive {
                alive := ArchiveFailure(name, name);
              }
              if !alive {
                return;
              }
              PerformedEnough(here, ops, left);
            case Job(id, approved, _) =>
              if approved {
                Sequence(here, left, [MoveToRunning(name)], RunOps(claimed, name, id, outcome));
                alive := DoAll([MoveToRunning(name)]);
                if alive {
                  alive := RunClaimed(name, id, outcome);
                }
                return;
              }
          }
        }
      }
      alive := true;
      assert order[|order|..] == [];
      NothingPerformed(Contents(), budget);
    }

    /** Imports the feed's new approved jobs and, at the very end, saves the ledger. */
    method SyncFeed(feed: seq<File>) returns (alive: bool)
      modifies this
      ensures Ran(old(Contents()), old(budget), SyncOps(old(Contents()), old(ledger), feed), alive)
    {
      hide Performed, Applied;
      ghost var start, full, total := Contents(), budget, SyncOps(Contents(), ledger, feed);
      var entries := ledger;
      for i := 0 to |feed|
        invariant Continues(start, full, total, SyncOps(Contents(), entries, feed[i..]))
      {
        var file := feed[i];
        assert feed[i..][0] == file && feed[i..][1..] == feed[i + 1..];
        if file.Job? && file.approved {
          ghost var here, left := Contents(), budget;
          if file.id in entries {
            if entries[file.id] != file {
              var op := NoteConflict(file.id, tokens);
              AllIsApplied(here, op);
              Sequence(here, left, [op], SyncOps(Applied(here, op), entries, feed[i + 1..]));
              alive := Do(op);
              if !alive {
                return;
              }
            }
          } else if Exists(file.id) {
            entries := entries[file.id := file];
          } else {
            AllIsApplied(here, Import(file));
            Sequence(here, left, [Import(file)], SyncOps(Applied(here, Import(file)), entries[file.id := file], feed[i + 1..]));
            alive := Do(Import(file));
            if !alive {
              return;
            }
            entries := entries[file.id := file];
          }
        }
      }
      assert feed[|feed|..] == [];
      alive := Do(SaveLedger(entries));
    }

    /** What a restarted host does before anything else. */
    method RecoverInterruptedJobs(names: seq<string>, dirs: seq<nat>) returns (alive: bool)
      modifies this
      ensures Ran(old(Contents()), old(budget), RecoverOps(old(Contents()), names, dirs), alive)
    {
      hide Performed, Applied, FailureOps;
      ghost var start, full, total := Contents(), budget, RecoverOps(Contents(), names, dirs);
      for i := 0 to |names|
        invariant Continues(start, full, total, RecoverOps(Contents(), names[i..], dirs))
      {
        assert names[i..][0] == names[i] && names[i..][1..] == names[i + 1..];
        ghost var here, left := Contents(), budget;
        ghost var ops := FailureOps(here, names[i], names[i]);
        assert RecoverOps(here, names[i..], dirs) == ops + RecoverOps(All(here, ops), names[i + 1..], dirs);
        Sequence(here, left, ops, RecoverOps(All(here, ops), names[i + 1..], dirs));
        alive := ArchiveFailure(names[i], names[i]);
        if !alive {
          return;
        }
        PerformedEnough(here, ops, left);
      }
      assert names[|names|..] == [];
      assert RecoverOps(Contents(), [], dirs) == StagingOps(dirs);
      alive := DoAll(StagingOps(dirs));
    }
  }

  lemma NothingPerformed(q: Queue, budget: nat)
    ensures Performed(q, [], budget) == q && All(q, []) == q && forall ops :: Performed(q, ops, 0) == q
  {}

  lemma AllIsApplied(q: Queue, op: Op)
    ensures All(q, [op]) == Applied(q, op)
  {
    hide Applied;
    assert [op][1..] == [];
    assert Performed(Applied(q, op), [], 0) == Applied(q, op);
  }

  /** Two runs of operations one after the other are one run, whether or not the first is cut short. */
  lemma Sequence(q: Queue, full: nat, first: seq<Op>, second: seq<Op>)
    ensures |first| <= full ==>
      Performed(q, first, full) == All(q, first) && Performed(q, first + second, full) == Performed(All(q, first), second, full - |first|)
    ensures |first| > full ==> Performed(q, first + second, full) == Performed(q, first, full)
  {
    hide Applied;
    PerformedConcat(q, first, second, full);
    if |first| <= full {
      PerformedEnough(q, first, full);
    }
    NothingPerformed(Performed(q, first, full), 0);
  }
}

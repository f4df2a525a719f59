/** The host's queue directories, and the durable operations each of its passes performs on them in order. */
module HostQueue {
  import opened Outcomes

  /** A job file; its hash is the file itself. Names of queue files and archives are safe job ids. */
  datatype File = Garbage(text: string) | Job(id: string, approved: bool, body: string)

  datatype ArchiveName = Plain(id: string) | Suffixed(id: string, token: nat) | FromStaging(token: nat) | Conflict(id: string, token: nat)

  /** A job file taken from pending to running. */
  datatype Claim = Claim(name: string, file: File)

  /**
   The directories: job files by name, staging directories by their random token, archives by name, each
   archive with the job file in it if there is one. `claims` and `ran` are the history of claims and of
   the claims handed to the runner; `tokens` is the next fresh token.
   */
  datatype Queue = Queue(
    pending: map<string, File>, running: map<string, File>, staging: map<nat, Option<File>>,
    completed: map<string, Option<File>>, failed: map<ArchiveName, Option<File>>, ledger: map<string, File>,
    claims: seq<Claim>, ran: seq<nat>, tokens: nat)

  datatype Op =
    | WritePending(name: string, file: File)
    | Import(file: File)
    | NoteConflict(id: string, token: nat)
    | SaveLedger(ledger: map<string, File>)
    | MoveToRunning(name: string)
    | HandToRunner
    | OpenStaging(token: nat)
    | CopyToStaging(name: string, token: nat)
    | MoveToStaging(name: string, token: nat)
    | DropRunning(name: string)
    | Complete(token: nat, id: string)
    | Fail(token: nat, archive: ArchiveName)

  function Applied(q: Queue, op: Op): Queue {
    match op
    case WritePending(name, file) => q.(pending := q.pending[name := file])
    case Import(file) => if file.Job? then q.(pending := q.pending[file.id := file]) else q
    case NoteConflict(id, token) => q.(failed := q.failed[Conflict(id, token) := None], tokens := q.tokens + 1)
    case SaveLedger(ledger) => q.(ledger := ledger)
    case MoveToRunning(name) =>
      if name !in q.pending then q
      else q.(pending := q.pending - {name}, running := q.running[name := q.pending[name]], claims := q.claims + [Claim(name, q.pending[name])])
    case HandToRunner => if q.claims == [] then q else q.(ran := q.ran + [|q.claims| - 1])
    case OpenStaging(token) => q.(staging := q.staging[token := None], tokens := q.tokens + 1)
    case CopyToStaging(name, token) =>
      if name !in q.running then q else q.(staging := q.staging[token := Some(q.running[name])])
    case MoveToStaging(name, token) =>
      if name !in q.running then q else q.(staging := q.staging[token := Some(q.running[name])], running := q.running - {name})
    case DropRunning(name) => q.(running := q.running - {name})
    case Complete(token, id) =>
      if token !in q.staging then q else q.(staging := q.staging - {token}, completed := q.completed[id := q.staging[token]])
    case Fail(token, archive) =>
      if token !in q.staging then q else q.(staging := q.staging - {token}, failed := q.failed[archive := q.staging[token]])
  }

  /** The queue after the first `budget` operations. */
  function Performed(q: Queue, ops: seq<Op>, budget: nat): Queue
    decreases |ops|
  {
    if ops == [] || budget == 0 then q else Performed(Applied(q, ops[0]), ops[1..], budget - 1)
  }

  function All(q: Queue, ops: seq<Op>): Queue { Performed(q, ops, |ops|) }

  // ---- synchronising with the feed ----

  /** Local state is authoritative: a job with a queue file or an archive under its own name exists. */
  predicate Exists(q: Queue, id: string) {
    id in q.pending || id in q.running || id in q.completed || Plain(id) in q.failed
  }

  /** The ledger is kept in memory and saved once, after the last feed file. */
  function SyncOps(q: Queue, ledger: map<string, File>, feed: seq<File>): seq<Op>
    decreases |feed|
  {
    if feed == [] then [SaveLedger(ledger)]
    else
      var file := feed[0];
      if file.Garbage? || !file.approved then SyncOps(q, ledger, feed[1..])
      else if file.id in ledger then
        if ledger[file.id] != file
        then [NoteConflict(file.id, q.tokens)] + SyncOps(Applied(q, NoteConflict(file.id, q.tokens)), ledger, feed[1..])
        else SyncOps(q, ledger, feed[1..])
      else if Exists(q, file.id) then SyncOps(q, ledger[file.id := file], feed[1..])
      else [Import(file)] + SyncOps(Applied(q, Import(file)), ledger[file.id := file], feed[1..])
  }

  // ---- archiving ----

  function FailedName(q: Queue, id: string, token: nat): ArchiveName {
    if Plain(id) in q.failed then Suffixed(id, token) else Plain(id)
  }

  /** Archives a failed job: its file moves through a fresh staging directory into the failed archive. */
  function FailureOps(q: Queue, name: string, id: string): seq<Op> {
    [OpenStaging(q.tokens)] + (if name in q.running then [MoveToStaging(name, q.tokens)] else []) + [Fail(q.tokens, FailedName(q, id, q.tokens))]
  }

  datatype Outcome = SourceDrifts | RunnerFails | ArtifactsFail | RenameFails | Succeeds

  /** A copy of the job file goes into a fresh staging directory. */
  function CopyOps(name: string, token: nat): seq<Op> { [OpenStaging(token), CopyToStaging(name, token)] }

  /** Archives a finished job: the file stays in running until every artifact is staged. */
  function SuccessOps(q: Queue, name: string, id: string, outcome: Outcome): seq<Op> {
    if id in q.completed then FailureOps(q, name, id)
    else
      var copied := CopyOps(name, q.tokens);
      if outcome.ArtifactsFail? then copied + FailureOps(All(q, copied), name, id)
      else
        var dropped := copied + [DropRunning(name)];
        if outcome.RenameFails? then dropped + FailureOps(All(q, dropped), name, id)
        else dropped + [Complete(q.tokens, id)]
  }

  /** Runs a claimed job once and archives it. */
  function RunOps(q: Queue, name: string, id: string, outcome: Outcome): seq<Op> {
    if outcome.SourceDrifts? then FailureOps(q, name, id)
    else
      var handed := Applied(q, HandToRunner);
      [HandToRunner] + (if outcome.RunnerFails? then FailureOps(handed, name, id) else SuccessOps(handed, name, id, outcome))
  }

  /** Claims the first approved job in the order given, archiving unreadable files on the way. */
  function ProcessOps(q: Queue, order: seq<string>, outcome: Outcome): seq<Op>
    decreases |order|
  {
    if order == [] then []
    else if order[0] !in q.pending then ProcessOps(q, order[1..], outcome)
    else
      var name, file := order[0], q.pending[order[0]];
      var claimed := Applied(q, MoveToRunning(name));
      match file
      case Garbage(_) =>
        var ops := [MoveToRunning(name)] + FailureOps(claimed, name, name);
        ops + ProcessOps(All(q, ops), order[1..], outcome)
      case Job(id, approved, _) =>
        if approved then [MoveToRunning(name)] + RunOps(claimed, name, id, outcome) else ProcessOps(q, order[1..], outcome)
  }

  // ---- recovery ----

  function InterruptedOps(q: Queue, names: seq<string>): seq<Op>
    decreases |names|
  {
    if names == [] then []
    else FailureOps(q, names[0], names[0]) + InterruptedOps(All(q, FailureOps(q, names[0], names[0])), names[1..])
  }

  function StagingOps(tokens: seq<nat>): seq<Op> {
    if tokens == [] then [] else [Fail(tokens[0], FromStaging(tokens[0]))] + StagingOps(tokens[1..])
  }

  /** What a restarted host does first: running jobs were interrupted, and staging directories are incomplete archives. */
  function RecoverOps(q: Queue, names: seq<string>, tokens: seq<nat>): seq<Op> { InterruptedOps(q, names) + StagingOps(tokens) }

  lemma {:induction false} PerformedConcat(q: Queue, a: seq<Op>, b: seq<Op>, budget: nat)
    ensures Performed(q, a + b, budget) == Performed(Performed(q, a, budget), b, if |a| <= budget then budget - |a| else 0)
    decreases |a|
  {
    hide Applied;
    if a == [] {
      assert a + b == b;
    } else if budget > 0 {
      assert (a + b)[0] == a[0] && (a + b)[1..] == a[1..] + b;
      PerformedConcat(Applied(q, a[0]), a[1..], b, budget - 1);
    }
  }

  lemma {:induction false} PerformedEnough(q: Queue, ops: seq<Op>, budget: nat)
    requires budget >= |ops|
    ensures Performed(q, ops, budget) == All(q, ops)
    decreases |ops|
  {
    hide Applied;
    if ops != [] {
      PerformedEnough(Applied(q, ops[0]), ops[1..], budget - 1);
      PerformedEnough(Applied(q, ops[0]), ops[1..], |ops| - 1);
    }
  }
}

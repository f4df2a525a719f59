/** Replacing a stuck refill generation by a fresh one, in durable writes any of which may be the last before a crash. */
module Supersession {
  import opened Outcomes

  /** Generations are named by the founder's command or by what they supersede; the hash is injective. */
  datatype Name = Founded(token: string) | Successor(id: Name, file: File)

  /** A generation file is its generation and the way it is laid out; its hash is the file itself. */
  datatype File = File(generation: Generation, layout: string)

  datatype Tracked = Tracked(job: string, item: string)

  datatype Generation = Generation(id: Name, createdAt: string, current: Option<Tracked>, prepared: bool, retryConsumed: bool, rest: string)

  datatype Category = InFlight | ItemTerminal | ProviderFailure(retryable: bool) | Unclear

  datatype Verdict = Verdict(category: Category, evidence: string)

  /** What a supersession is asked to replace: a generation id, and the hash of its exact file. */
  datatype Key = Key(id: Name, file: File)

  datatype Receipt = Receipt(key: Key, tracked: Tracked, verdict: Verdict, ambiguity: string, requestedBy: string, release: string,
                             supersededAt: string, newId: Name, replacement: Generation)

  datatype Policy = Policy(enabled: bool, desired: nat, resume: Option<nat>, completed: Option<Key>, decision: Option<bool>)

  datatype Disk = Disk(active: Option<File>, archives: map<Name, File>, receipts: map<Key, Receipt>, policy: Policy)

  /** What a supersession reads besides its files. The verdict is on the superseded generation's current attempt. */
  datatype View = View(healthy: bool, running: nat, queued: nat, awaiting: nat, requestedBy: string, release: string,
                       now: string, verdict: Verdict)

  datatype Write =
    | WriteArchive(id: Name, file: File)
    | WriteReceipt(key: Key, receipt: Receipt)
    | WriteActive(file: File)
    | WritePolicy(policy: Policy)

  datatype Refusal =
    | NotPaused | NotHealthy | JobsRunning | JobsPending | JobsAwaitingImport | DispatchPrepared
    | AttemptInFlight | AttemptTerminal | RetryAuthorized | NotAmbiguous | ReceiptConflicts | ArchiveMissing
    | ArchiveUnverified | ArchiveIdMismatch | NoCurrentAttempt | ReceiptConflictsWithArchive
    | ActiveConflictsWithReceipt | CompletionConflicts | ClassificationChanged | ArchiveConflicts
    | NoActiveGeneration | HashMismatch | IdMismatch

  /** The writes to make, and the report (whether it repeats earlier work) or the refusal. */
  datatype Plan = Plan(writes: seq<Write>, outcome: Result<bool, Refusal>)

  const CANONICAL := "indented, sorted"

  function Fresh(key: Key, now: string): Generation {
    Generation(Successor(key.id, key.file), now, None, false, false, "ready, capacity one, after the recorder")
  }

  function Refuse(why: Refusal): Plan { Plan([], Err(why)) }

  /** The receipt records this request, this attempt and this verdict, and the generation it promises is fresh. */
  predicate ReceiptMatches(r: Receipt, key: Key, tracked: Tracked, verdict: Verdict, v: View) {
    && r.key == key && r.tracked == tracked && r.verdict == verdict && r.ambiguity == verdict.evidence
    && r.requestedBy == v.requestedBy && r.release == v.release
    && r.replacement == Fresh(key, r.supersededAt) && r.newId == r.replacement.id
  }

  /** Why a supersession may not start now, if it may not. */
  function Unready(policy: Policy, g: Generation, v: View): Option<Refusal> {
    if policy.enabled || policy.desired != 0 then Some(NotPaused)
    else if !v.healthy then Some(NotHealthy)
    else if v.running > 0 then Some(JobsRunning)
    else if v.queued > 0 then Some(JobsPending)
    else if v.awaiting > 0 then Some(JobsAwaitingImport)
    else if g.prepared then Some(DispatchPrepared)
    else
      match v.verdict.category
      case InFlight => Some(AttemptInFlight)
      case ItemTerminal => Some(AttemptTerminal)
      case ProviderFailure(retryable) =>
        if retryable && !g.retryConsumed then Some(RetryAuthorized) else Some(NotAmbiguous)
      case Unclear => None
  }

  function SupersededPolicy(policy: Policy, key: Key): Policy {
    policy.(enabled := true, desired := 1, resume := Some(1), completed := Some(key))
  }

  /** The policy is saved, and saved again with the decision that is reported. */
  function PolicyWrites(policy: Policy, key: Key, idempotent: bool): seq<Write> {
    var saved := SupersededPolicy(policy, key);
    [WritePolicy(saved), WritePolicy(saved.(decision := Some(idempotent)))]
  }

  /** The active file is not the one named any more, but a receipt for the request exists. */
  function Resume(d: Disk, key: Key, v: View, active: File, r: Receipt): Plan {
    if !ReceiptMatches(r, key, r.tracked, r.verdict, v) then Refuse(ReceiptConflicts)
    else if key.id !in d.archives then Refuse(ArchiveMissing)
    else if d.archives[key.id] != key.file then Refuse(ArchiveUnverified)
    else if key.file.generation.id != key.id then Refuse(ArchiveIdMismatch)
    else
      match key.file.generation.current
      case None => Refuse(NoCurrentAttempt)
      case Some(tracked) =>
        if r.tracked != tracked then Refuse(ReceiptConflictsWithArchive)
        else if active.generation.id != r.newId then Refuse(ActiveConflictsWithReceipt)
        else if d.policy.completed == Some(key) then Plan([], Ok(true))
        else if active.generation != r.replacement then Refuse(ActiveConflictsWithReceipt)
        else if d.policy.completed.Some? then Refuse(CompletionConflicts)
        else if v.verdict != r.verdict then Refuse(ClassificationChanged)
        else
          var unready := Unready(d.policy, key.file.generation, v);
          if unready.Some? then Refuse(unready.value) else Plan(PolicyWrites(d.policy, key, true), Ok(true))
  }

  /** The receipt is already there but the active file was not replaced. */
  function Finish(d: Disk, key: Key, v: View, tracked: Tracked, r: Receipt): Plan {
    if d.policy.completed.Some? && d.policy.completed != Some(key) then Refuse(CompletionConflicts)
    else if !ReceiptMatches(r, key, tracked, v.verdict, v) then Refuse(ReceiptConflicts)
    else if key.id !in d.archives then Refuse(ArchiveMissing)
    else if d.archives[key.id] != key.file then Refuse(ArchiveConflicts)
    else
      var unready := Unready(d.policy, key.file.generation, v);
      if unready.Some? then Refuse(unready.value)
      else Plan([WriteActive(File(r.replacement, CANONICAL))] + PolicyWrites(d.policy, key, true), Ok(true))
  }

  function NewReceipt(key: Key, tracked: Tracked, v: View): Receipt {
    Receipt(key, tracked, v.verdict, v.verdict.evidence, v.requestedBy, v.release, v.now, Fresh(key, v.now).id, Fresh(key, v.now))
  }

  function Begin(d: Disk, key: Key, v: View, tracked: Tracked): Plan {
    var unready := Unready(d.policy, key.file.generation, v);
    if unready.Some? then Refuse(unready.value)
    else if key.id in d.archives && d.archives[key.id] != key.file then Refuse(ArchiveConflicts)
    else
      Plan((if key.id in d.archives then [] else [WriteArchive(key.id, key.file)])
           + [WriteReceipt(key, NewReceipt(key, tracked, v)), WriteActive(File(Fresh(key, v.now), CANONICAL))]
           + PolicyWrites(d.policy, key, false),
           Ok(false))
  }

  function Supersede(d: Disk, key: Key, v: View): Plan {
    match d.active
    case None => Refuse(NoActiveGeneration)
    case Some(active) =>
      if active != key.file && key in d.receipts then Resume(d, key, v, active, d.receipts[key])
      else if active != key.file then Refuse(HashMismatch)
      else if active.generation.id != key.id then Refuse(IdMismatch)
      else
        match active.generation.current
        case None => Refuse(NoCurrentAttempt)
        case Some(tracked) =>
          if key in d.receipts then Finish(d, key, v, tracked, d.receipts[key]) else Begin(d, key, v, tracked)
  }

  // ---- making the writes ----

  function Written(d: Disk, write: Write): Disk {
    match write
    case WriteArchive(id, file) => d.(archives := d.archives[id := file])
    case WriteReceipt(key, receipt) => d.(receipts := d.receipts[key := receipt])
    case WriteActive(file) => d.(active := Some(file))
    case WritePolicy(policy) => d.(policy := policy)
  }

  /** The disk once the first `budget` writes are made and the process is gone or done. */
  function Performed(d: Disk, writes: seq<Write>, budget: nat): Disk
    decreases |writes|
  {
    if writes == [] || budget == 0 then d else Performed(Written(d, writes[0]), writes[1..], budget - 1)
  }

  function Attempted(d: Disk, key: Key, v: View, budget: nat): Disk { Performed(d, Supersede(d, key, v).writes, budget) }

  class SupersessionFiles {
    var active: Option<File>
    var archives: map<Name, File>
    var receipts: map<Key, Receipt>
    var policy: Policy

    constructor (d: Disk)
      ensures Contents() == d
    {
      active, archives, receipts, policy := d.active, d.archives, d.receipts, d.policy;
    }

    function Contents(): Disk
      reads this
    {
      Disk(active, archives, receipts, policy)
    }

    /** Saves the policy, then the report's decision; returns what is left of the budget, none on a crash. */
    method SavePolicy(key: Key, idempotent: bool, budget: nat) returns (left: Option<nat>)
      modifies `policy
      ensures Contents() == Performed(old(Contents()), PolicyWrites(old(policy), key, idempotent), budget)
      ensures left == if budget >= 2 then Some(budget - 2) else None
    {
      ghost var writes := PolicyWrites(policy, key, idempotent);
      PerformedTwice(Contents(), writes, budget);
      var saved := SupersededPolicy(policy, key);
      if budget == 0 {
        return None;
      }
      policy := saved;
      if budget == 1 {
        return None;
      }
      policy := saved.(decision := Some(idempotent));
      left := Some(budget - 2);
    }

    method SaveGeneration(g: Generation, budget: nat) returns (left: Option<nat>)
      modifies `active
      ensures Contents() == Performed(old(Contents()), [WriteActive(File(g, CANONICAL))], budget)
      ensures left == if budget >= 1 then Some(budget - 1) else None
    {
      assert [WriteActive(File(g, CANONICAL))][1..] == [];
      if budget == 0 {
        return None;
      }
      active := Some(File(g, CANONICAL));
      left := Some(budget - 1);
    }

    /** Replaces the generation and binds the completion; no outcome when the process dies on the way. */
    method Replace(key: Key, g: Generation, idempotent: bool, budget: nat) returns (outcome: Option<Result<bool, Refusal>>)
      modifies `active, `policy
      ensures Contents() ==
        Performed(old(Contents()), [WriteActive(File(g, CANONICAL))] + PolicyWrites(old(policy), key, idempotent), budget)
      ensures outcome == if budget >= 3 then Some(Ok(idempotent)) else None
    {
      PerformedConcat(Contents(), [WriteActive(File(g, CANONICAL))], PolicyWrites(policy, key, idempotent), budget);
      var left := SaveGeneration(g, budget);
      if left.None? {
        return None;
      }
      left := SavePolicy(key, idempotent, left.value);
      outcome := if left.None? then None else Some(Ok(idempotent));
    }

    method ResumeSupersession(key: Key, v: View, r: Receipt, budget: nat) returns (outcome: Option<Result<bool, Refusal>>)
      requires active.Some?
      modifies `policy
      ensures
        var plan := Resume(old(Contents()), key, v, old(active).value, r);
        && Contents() == Performed(old(Contents()), plan.writes, budget)
        && outcome == if |plan.writes| <= budget then Some(plan.outcome) else None
    {
      if !ReceiptMatches(r, key, r.tracked, r.verdict, v) {
        return Some(Err(ReceiptConflicts));
      }
      if key.id !in archives {
        return Some(Err(ArchiveMissing));
      }
      var archived := archives[key.id];
      if archived != key.file {
        return Some(Err(ArchiveUnverified));
      }
      if archived.generation.id != key.id {
        return Some(Err(ArchiveIdMismatch));
      }
      if archived.generation.current.None? {
        return Some(Err(NoCurrentAttempt));
      }
      if r.tracked != archived.generation.current.value {
        return Some(Err(ReceiptConflictsWithArchive));
      }
      if active.value.generation.id != r.newId {
        return Some(Err(ActiveConflictsWithReceipt));
      }
      if policy.completed == Some(key) {
        return Some(Ok(true));
      }
      if active.value.generation != r.replacement {
        return Some(Err(ActiveConflictsWithReceipt));
      }
      if policy.completed.Some? {
        return Some(Err(CompletionConflicts));
      }
      if v.verdict != r.verdict {
        return Some(Err(ClassificationChanged));
      }
      var unready := Unready(policy, archived.generation, v);
      if unready.Some? {
        return Some(Err(unready.value));
      }
      var left := SavePolicy(key, true, budget);
      outcome := if left.None? then None else Some(Ok(true));
    }

    method BeginSupersession(key: Key, v: View, tracked: Tracked, budget: nat) returns (outcome: Option<Result<bool, Refusal>>)
      modifies this
      ensures
        var plan := Begin(old(Contents()), key, v, tracked);
        && Contents() == Performed(old(Contents()), plan.writes, budget)
        && outcome == if |plan.writes| <= budget then Some(plan.outcome) else None
    {
      var unready := Unready(policy, key.file.generation, v);
      if unready.Some? {
        return Some(Err(unready.value));
      }
      var left := budget;
      ghost var plan, start := Begin(Contents(), key, v, tracked), Contents();
      ghost var first := if key.id in archives then [] else [WriteArchive(key.id, key.file)];
      ghost var second := [WriteReceipt(key, NewReceipt(key, tracked, v))];
      ghost var third := [WriteActive(File(Fresh(key, v.now), CANONICAL))] + PolicyWrites(policy, key, false);
      if key.id in archives {
        if archives[key.id] != key.file {
          return Some(Err(ArchiveConflicts));
        }
      }
      assert plan.writes == first + (second + third);
      PerformedConcat(start, first, second + third, budget);
      if key.id !in archives {
        if left == 0 {
          return None;
        }
        archives, left := archives[key.id := key.file], left - 1;
      }
      assert Contents() == Performed(start, first, budget) by { assert first != [] ==> first[1..] == []; }
      PerformedConcat(Contents(), second, third, left);
      assert second[1..] == [];
      if left == 0 {
        return None;
      }
      receipts, left := receipts[key := NewReceipt(key, tracked, v)], left - 1;
      outcome := Replace(key, Fresh(key, v.now), false, left);
    }

    method SupersedeGeneration(key: Key, v: View, budget: nat) returns (outcome: Option<Result<bool, Refusal>>)
      modifies this
      ensures Contents() == Attempted(old(Contents()), key, v, budget)
      ensures
        var plan := Supersede(old(Contents()), key, v);
        outcome == if |plan.writes| <= budget then Some(plan.outcome) else None
    {
      hide ReceiptMatches, Unready, PolicyWrites;
      if active.None? {
        return Some(Err(NoActiveGeneration));
      }
      if active.value != key.file {
        if key in receipts {
          outcome := ResumeSupersession(key, v, receipts[key], budget);
          return;
        }
        return Some(Err(HashMismatch));
      }
      if active.value.generation.id != key.id {
        return Some(Err(IdMismatch));
      }
      if active.value.generation.current.None? {
        return Some(Err(NoCurrentAttempt));
      }
      var tracked := active.value.generation.current.value;
      if key !in receipts {
        outcome := BeginSupersession(key, v, tracked, budget);
        return;
      }
      var r := receipts[key];
      if policy.completed.Some? && policy.completed != Some(key) {
        return Some(Err(CompletionConflicts));
      }
      if !ReceiptMatches(r, key, tracked, v.verdict, v) {
        return Some(Err(ReceiptConflicts));
      }
      if key.id !in archives {
        return Some(Err(ArchiveMissing));
      }
      if archives[key.id] != key.file {
        return Some(Err(ArchiveConflicts));
      }
      var unready := Unready(policy, key.file.generation, v);
      if unready.Some? {
        return Some(Err(unready.value));
      }
      PolicyIsTwoWrites(policy, key, true);
      outcome := Replace(key, r.replacement, true, budget);
    }
  }

  lemma PerformedTwice(d: Disk, writes: seq<Write>, budget: nat)
    requires |writes| == 2
    ensures Performed(d, writes, budget) ==
      if budget == 0 then d else if budget == 1 then Written(d, writes[0]) else Written(Written(d, writes[0]), writes[1])
  {
    assert writes[1..] == [writes[1]] && writes[1..][1..] == [];
    if budget > 0 {
      var next := Written(d, writes[0]);
      assert Performed(d, writes, budget) == Performed(next, [writes[1]], budget - 1);
      assert budget > 1 ==> Performed(next, [writes[1]], budget - 1) == Written(next, writes[1]);
    }
  }

  lemma PolicyIsTwoWrites(policy: Policy, key: Key, idempotent: bool)
    ensures |PolicyWrites(policy, key, idempotent)| == 2
  {}

  lemma {:induction false} PerformedConcat(d: Disk, a: seq<Write>, b: seq<Write>, budget: nat)
    ensures Performed(d, a + b, budget) == Performed(Performed(d, a, budget), b, if |a| <= budget then budget - |a| else 0)
    decreases |a|
  {
    if a == [] {
      assert a + b == b;
    } else if budget > 0 {
      assert (a + b)[0] == a[0] && (a + b)[1..] == a[1..] + b;
      PerformedConcat(Written(d, a[0]), a[1..], b, budget - 1);
    }
  }
}

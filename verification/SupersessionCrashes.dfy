/** A supersession interrupted anywhere, any number of times, ends where an uninterrupted one could have ended. */
module SupersessionCrashes {
  import opened Outcomes
  import opened Supersession

  /** The views of one request: same requester, release and verdict, green health and nothing queued; only the clock moves. */
  predicate Alike(v: View, w: View) {
    && w.requestedBy == v.requestedBy && w.release == v.release && w.verdict == v.verdict
    && w.healthy && w.running == 0 && w.queued == 0 && w.awaiting == 0
  }

  /** A disk on which the request can be carried out from the start. */
  predicate Startable(d: Disk, key: Key, v: View) {
    && d.active == Some(key.file) && key.file.generation.id == key.id && key.file.generation.current.Some?
    && key !in d.receipts && Alike(v, v) && v.verdict.category.Unclear?
    && !d.policy.enabled && d.policy.desired == 0 && !key.file.generation.prepared
    && (key.id in d.archives ==> d.archives[key.id] == key.file)
  }

  // ---- the disks on the way ----

  function Archived(d: Disk, key: Key): Disk { d.(archives := d.archives[key.id := key.file]) }

  function Receipted(d: Disk, key: Key, v: View): Disk
    requires key.file.generation.current.Some?
  {
    Archived(d, key).(receipts := d.receipts[key := NewReceipt(key, key.file.generation.current.value, v)])
  }

  function Replaced(d: Disk, key: Key, v: View): Disk
    requires key.file.generation.current.Some?
  {
    Receipted(d, key, v).(active := Some(File(Fresh(key, v.now), CANONICAL)))
  }

  function Bound(d: Disk, key: Key, v: View): Disk
    requires key.file.generation.current.Some?
  {
    Replaced(d, key, v).(policy := SupersededPolicy(d.policy, key))
  }

  function Decided(d: Disk, key: Key, v: View, idempotent: bool): Disk
    requires key.file.generation.current.Some?
  {
    Replaced(d, key, v).(policy := SupersededPolicy(d.policy, key).(decision := Some(idempotent)))
  }

  predicate Complete(d: Disk, key: Key, v: View, e: Disk)
    requires key.file.generation.current.Some?
  {
    e == Bound(d, key, v) || e == Decided(d, key, v, true) || e == Decided(d, key, v, false)
  }

  predicate Underway(d: Disk, key: Key, v: View, e: Disk)
    requires key.file.generation.current.Some?
  {
    e == Receipted(d, key, v) || e == Replaced(d, key, v) || Complete(d, key, v, e)
  }

  predicate Early(d: Disk, key: Key, e: Disk) { e == d || e == Archived(d, key) }

  ghost predicate Reached(d: Disk, key: Key, v: View, e: Disk)
    requires key.file.generation.current.Some?
  {
    Early(d, key, e) || exists now :: Underway(d, key, v.(now := now), e)
  }

  // ---- one attempt ----

  lemma PerformedStep(d: Disk, write: Write, rest: seq<Write>, budget: nat)
    ensures Performed(d, [write] + rest, budget) == if budget == 0 then d else Performed(Written(d, write), rest, budget - 1)
  {
    assert ([write] + rest)[0] == write && ([write] + rest)[1..] == rest;
  }

  lemma NothingPerformed(d: Disk, budget: nat)
    ensures Performed(d, [], budget) == d
  {}

  /** Replacing the active file and binding the completion, from a disk that has archive and receipt. */
  lemma ReplacePerforms(d: Disk, key: Key, v: View, idempotent: bool, budget: nat)
    requires key.file.generation.current.Some?
    ensures
      var e := Performed(Receipted(d, key, v), [WriteActive(File(Fresh(key, v.now), CANONICAL))] + PolicyWrites(d.policy, key, idempotent), budget);
      && Underway(d, key, v, e)
      && (budget >= 3 ==> e == Decided(d, key, v, idempotent))
      && (budget == 2 ==> e == Bound(d, key, v)) && (budget == 1 ==> e == Replaced(d, key, v)) && (budget == 0 ==> e == Receipted(d, key, v))
  {
    PerformedStep(Receipted(d, key, v), WriteActive(File(Fresh(key, v.now), CANONICAL)), PolicyWrites(d.policy, key, idempotent), budget);
    if budget > 0 {
      PerformedTwice(Replaced(d, key, v), PolicyWrites(d.policy, key, idempotent), budget - 1);
    }
  }

  lemma EarlyPlan(d: Disk, key: Key, v: View, e: Disk, w: View)
    requires Startable(d, key, v) && Early(d, key, e) && Alike(v, w)
    ensures
      var tracked := key.file.generation.current.value;
      Supersede(e, key, w) == Plan(
        (if key.id in e.archives then [] else [WriteArchive(key.id, key.file)])
        + [WriteReceipt(key, NewReceipt(key, tracked, w)), WriteActive(File(Fresh(key, w.now), CANONICAL))]
        + PolicyWrites(d.policy, key, false),
        Ok(false))
  {
    hide PolicyWrites, SupersededPolicy;
    assert Unready(e.policy, key.file.generation, w).None?;
    assert Supersede(e, key, w) == Begin(e, key, w, key.file.generation.current.value);
  }

  lemma ArchivePerforms(d: Disk, key: Key, e: Disk, budget: nat)
    requires Early(d, key, e) && (key.id in d.archives ==> d.archives[key.id] == key.file)
    ensures
      var first := if key.id in e.archives then [] else [WriteArchive(key.id, key.file)];
      var archived := Performed(e, first, budget);
      Early(d, key, archived) && (budget >= |first| ==> archived == Archived(d, key))
  {
    assert key.id in d.archives ==> Archived(d, key) == d;
    if key.id in e.archives {
      NothingPerformed(e, budget);
    } else {
      var write := WriteArchive(key.id, key.file);
      assert [write] + [] == [write];
      PerformedStep(e, write, [], budget);
      NothingPerformed(Written(e, write), if budget > 0 then budget - 1 else 0);
    }
  }

  /** Starting over before the receipt exists. */
  lemma EarlyAttempt(d: Disk, key: Key, v: View, e: Disk, w: View, budget: nat)
    requires Startable(d, key, v) && Early(d, key, e) && Alike(v, w)
    ensures
      && Supersede(e, key, w).outcome == Ok(false) && |Supersede(e, key, w).writes| <= 5
      && (Early(d, key, Attempted(e, key, w, budget)) || Underway(d, key, w, Attempted(e, key, w, budget)))
      && (budget >= 5 ==> Attempted(e, key, w, budget) == Decided(d, key, w, false))
  {
    EarlyPlan(d, key, v, e, w);
    ArchivePerforms(d, key, e, budget);
    assert |PolicyWrites(d.policy, key, false)| == 2;
    hide Supersede, Early, Underway, PolicyWrites, Performed, Decided;
    var tracked := key.file.generation.current.value;
    var first := if key.id in e.archives then [] else [WriteArchive(key.id, key.file)];
    var receipt := WriteReceipt(key, NewReceipt(key, tracked, w));
    var last := [WriteActive(File(Fresh(key, w.now), CANONICAL))] + PolicyWrites(d.policy, key, false);
    assert Supersede(e, key, w).writes == first + ([receipt] + last);
    PerformedConcat(e, first, [receipt] + last, budget);
    var left: nat := if |first| <= budget then budget - |first| else 0;
    if left > 0 {
      ReceiptAndRest(d, key, w, left);
    } else {
      NothingIsPerformed(Performed(e, first, budget), [receipt] + last);
    }
  }

  lemma NothingIsPerformed(d: Disk, writes: seq<Write>)
    ensures Performed(d, writes, 0) == d
  {}

  /** From the archived disk on: the receipt, the new generation and the policy. */
  lemma ReceiptAndRest(d: Disk, key: Key, w: View, left: nat)
    requires key.file.generation.current.Some? && left > 0
    ensures
      var rest := [WriteReceipt(key, NewReceipt(key, key.file.generation.current.value, w))]
                  + ([WriteActive(File(Fresh(key, w.now), CANONICAL))] + PolicyWrites(d.policy, key, false));
      var e := Performed(Archived(d, key), rest, left);
      Underway(d, key, w, e) && (left >= 4 ==> e == Decided(d, key, w, false))
  {
    var receipt := WriteReceipt(key, NewReceipt(key, key.file.generation.current.value, w));
    var last := [WriteActive(File(Fresh(key, w.now), CANONICAL))] + PolicyWrites(d.policy, key, false);
    assert Written(Archived(d, key), receipt) == Receipted(d, key, w);
    hide PolicyWrites, Performed, Underway, Decided, Receipted;
    PerformedStep(Archived(d, key), receipt, last, left);
    ReplacePerforms(d, key, w, false, left - 1);
  }

  /** An active file that names the replaced file in its own id is another file. */
  lemma ReplacementDiffers(key: Key, now: string)
    ensures File(Fresh(key, now), CANONICAL) != key.file
  {
    assert Fresh(key, now).id.file == key.file;
  }

  /** The receipt and the archive on an underway disk are the ones its request needs. */
  lemma UnderwayMatches(d: Disk, key: Key, v: View, e: Disk, w: View)
    requires Startable(d, key, v) && Underway(d, key, v, e) && Alike(v, w)
    ensures
      var tracked, r := key.file.generation.current.value, NewReceipt(key, key.file.generation.current.value, v);
      && key in e.receipts && e.receipts[key] == r && ReceiptMatches(r, key, tracked, w.verdict, w)
      && key.id in e.archives && e.archives[key.id] == key.file
      && (e == Receipted(d, key, v) ==> Supersede(e, key, w) == Finish(e, key, w, tracked, r))
      && (e != Receipted(d, key, v) ==> e.active == Some(File(Fresh(key, v.now), CANONICAL)) && Supersede(e, key, w) == Resume(e, key, w, e.active.value, r))
      && Unready(d.policy, key.file.generation, w).None?
  {
    ReplacementDiffers(key, v.now);
  }

  lemma UnderwayPlan(d: Disk, key: Key, v: View, e: Disk, w: View)
    requires Startable(d, key, v) && d.policy.completed.None? && Underway(d, key, v, e) && Alike(v, w)
    ensures
      Supersede(e, key, w) == Plan(
        if e == Receipted(d, key, v) then [WriteActive(File(Fresh(key, v.now), CANONICAL))] + PolicyWrites(d.policy, key, true)
        else if e == Replaced(d, key, v) then PolicyWrites(d.policy, key, true)
        else [],
        Ok(true))
  {
    UnderwayMatches(d, key, v, e, w);
    hide Supersede, PolicyWrites, ReceiptMatches, Unready;
  }

  /** Carrying on after the receipt was written. */
  lemma UnderwayAttempt(d: Disk, key: Key, v: View, e: Disk, w: View, budget: nat)
    requires Startable(d, key, v) && d.policy.completed.None? && Underway(d, key, v, e) && Alike(v, w)
    ensures
      && Supersede(e, key, w).outcome == Ok(true) && |Supersede(e, key, w).writes| <= 3
      && Underway(d, key, v, Attempted(e, key, w, budget))
      && (budget >= 3 ==> Complete(d, key, v, Attempted(e, key, w, budget)))
      && (Complete(d, key, v, e) ==> Supersede(e, key, w).writes == [])
  {
    UnderwayPlan(d, key, v, e, w);
    hide Supersede;
    NothingPerformed(e, budget);
    if e == Receipted(d, key, v) {
      ReplacePerforms(d, key, v, true, budget);
    } else if e == Replaced(d, key, v) {
      PerformedTwice(e, PolicyWrites(d.policy, key, true), budget);
    }
  }

  // ---- any number of attempts ----

  datatype Attempt = Attempt(view: View, budget: nat)

  function AfterAttempts(d: Disk, key: Key, attempts: seq<Attempt>): Disk
    decreases |attempts|
  {
    if attempts == [] then d else AfterAttempts(Attempted(d, key, attempts[0].view, attempts[0].budget), key, attempts[1..])
  }

  lemma OneAttempt(d: Disk, key: Key, v: View, e: Disk, w: View, budget: nat)
    requires Startable(d, key, v) && d.policy.completed.None? && Reached(d, key, v, e) && Alike(v, w)
    ensures Supersede(e, key, w).outcome.Ok? && Reached(d, key, v, Attempted(e, key, w, budget))
    ensures budget >= 5 ==> exists now :: Complete(d, key, v.(now := now), Attempted(e, key, w, budget))
  {
    hide Complete, Early, Underway, Supersede, Attempted, Performed;
    if Early(d, key, e) {
      EarlyAttempt(d, key, v, e, w, budget);
      AlikeUpToNow(d, key, v, w, Attempted(e, key, w, budget));
    } else {
      var now :| Underway(d, key, v.(now := now), e);
      UnderwayAttempt(d, key, v.(now := now), e, w, budget);
    }
  }

  /** Only the clock of a view ends up on disk. */
  lemma AlikeUpToNow(d: Disk, key: Key, v: View, w: View, e: Disk)
    requires Startable(d, key, v) && Alike(v, w)
    ensures Underway(d, key, w, e) ==> Underway(d, key, v.(now := w.now), e)
    ensures e == Decided(d, key, w, false) ==> Complete(d, key, v.(now := w.now), e)
  {
    assert v.(now := w.now) == w;
  }

  lemma {:induction false} AttemptsStayReached(d: Disk, key: Key, v: View, e: Disk, attempts: seq<Attempt>)
    requires Startable(d, key, v) && d.policy.completed.None? && Reached(d, key, v, e)
    requires forall a :: a in attempts ==> Alike(v, a.view)
    ensures Reached(d, key, v, AfterAttempts(e, key, attempts))
    decreases |attempts|
  {
    hide Startable, Alike, Reached, Attempted;
    if attempts != [] {
      assert attempts[0] in attempts;
      OneAttempt(d, key, v, e, attempts[0].view, attempts[0].budget);
      AttemptsStayReached(d, key, v, Attempted(e, key, attempts[0].view, attempts[0].budget), attempts[1..]);
    }
  }

  lemma StartIsEarly(d: Disk, key: Key)
    ensures Early(d, key, d)
  {}

  lemma CompleteIsUnderway(d: Disk, key: Key, v: View, e: Disk)
    requires key.file.generation.current.Some? && Complete(d, key, v, e)
    ensures Underway(d, key, v, e)
  {}

  /** The policy's note of the last decision tells a repeated run from a first one; nothing else may. */
  function Noted(d: Disk): Disk { d.(policy := d.policy.(decision := None)) }

  /** What the policy notes of the last decision: a first run, a repeated one, or what it noted when it was already bound. */
  function Note(before: Disk, key: Key): Option<bool> {
    if key !in before.receipts then Some(false)
    else if before.policy.completed == Some(key) then before.policy.decision
    else Some(true)
  }

  lemma EarlyNotes(d: Disk, key: Key, v: View, e: Disk, w: View)
    requires Startable(d, key, v) && Early(d, key, e) && Alike(v, w)
    ensures Attempted(e, key, w, 5).policy.decision == Note(e, key)
  {
    EarlyAttempt(d, key, v, e, w, 5);
    hide Attempted;
  }

  lemma UnderwayNotes(d: Disk, key: Key, v: View, e: Disk, w: View)
    requires Startable(d, key, v) && d.policy.completed.None? && Underway(d, key, v, e) && Alike(v, w)
    ensures Attempted(e, key, w, 5).policy.decision == Note(e, key)
  {
    UnderwayPlan(d, key, v, e, w);
    hide Supersede, Startable;
    NothingPerformed(e, 5);
    if e == Receipted(d, key, v) {
      ReplacePerforms(d, key, v, true, 5);
    } else if e == Replaced(d, key, v) {
      PerformedTwice(e, PolicyWrites(d.policy, key, true), 5);
    }
  }

  /**
   However often it is interrupted, and wherever, the supersession can be carried through, and the
   disk then is one that an uninterrupted supersession would have left, but for the policy's note of
   its last decision, which is told exactly. After that it writes nothing.
   */
  lemma CrashesAreHarmless(d: Disk, key: Key, v: View, attempts: seq<Attempt>, w: View, again: View)
    requires Startable(d, key, v) && d.policy.completed.None?
    requires (forall a :: a in attempts ==> Alike(v, a.view)) && Alike(v, w) && Alike(v, again)
    ensures
      var before := AfterAttempts(d, key, attempts);
      var after := Attempted(before, key, w, 5);
      && Supersede(before, key, w).outcome.Ok?
      && (exists now :: Noted(after) == Noted(Attempted(d, key, v.(now := now), 5)))
      && after.policy.decision == Note(before, key)
      && Supersede(after, key, again).outcome == Ok(true) && Supersede(after, key, again).writes == []
  {
    hide Supersede, Attempted, Performed, AfterAttempts, Early, Underway;
    StartIsEarly(d, key);
    AttemptsStayReached(d, key, v, d, attempts);
    var before := AfterAttempts(d, key, attempts);
    OneAttempt(d, key, v, before, w, 5);
    if Early(d, key, before) {
      EarlyNotes(d, key, v, before, w);
    } else {
      var at :| Underway(d, key, v.(now := at), before);
      UnderwayNotes(d, key, v.(now := at), before, w);
    }
    var after := Attempted(before, key, w, 5);
    var now :| Complete(d, key, v.(now := now), after);
    var u := v.(now := now);
    EarlyAttempt(d, key, v, d, u, 5);
    assert Noted(after) == Noted(Decided(d, key, u, false));
    CompleteIsUnderway(d, key, u, after);
    UnderwayAttempt(d, key, u, after, again, 0);
  }

  // ---- the completion binding ----

  /**
   A stored completion id is never cleared. If it belongs to another supersession, then a crash after
   the receipt and before the policy cannot be retried: every retry refuses and writes nothing. In all
   other cases the retry succeeds.
   */
  lemma RetryDecided(d: Disk, key: Key, v: View, w: View, budget: nat)
    requires Startable(d, key, v) && Alike(v, w)
    ensures
      var e := Attempted(d, key, v, budget);
      Supersede(e, key, w).outcome.Ok? <==>
        d.policy.completed == None || d.policy.completed == Some(key) || key !in e.receipts || e.policy.completed == Some(key)
    ensures Supersede(Attempted(d, key, v, budget), key, w).outcome.Err? ==> Supersede(Attempted(d, key, v, budget), key, w).writes == []
  {
    var e := Attempted(d, key, v, budget);
    EarlyAttempt(d, key, v, d, v, budget);
    if Early(d, key, e) {
      EarlyAttempt(d, key, v, e, w, 0);
    } else {
      hide Attempted;
      UnderwayRetry(d, key, v, e, w);
    }
  }

  lemma UnderwayRetry(d: Disk, key: Key, v: View, e: Disk, w: View)
    requires Startable(d, key, v) && Alike(v, w) && Underway(d, key, v, e)
    ensures
      Supersede(e, key, w).outcome.Ok? <==>
        d.policy.completed == None || d.policy.completed == Some(key) || key !in e.receipts || e.policy.completed == Some(key)
    ensures Supersede(e, key, w).outcome.Err? ==> Supersede(e, key, w).writes == []
  {
    UnderwayMatches(d, key, v, e, w);
    hide Supersede, PolicyWrites, ReceiptMatches, Unready;
  }

  // ---- nothing is lost ----

  /** What a disk keeps: archives and receipts as they are, the old file active or archived, a completion once bound. */
  predicate Keeps(d: Disk, e: Disk) {
    && (forall id :: id in d.archives ==> id in e.archives && e.archives[id] == d.archives[id])
    && (forall key :: key in d.receipts ==> key in e.receipts && e.receipts[key] == d.receipts[key])
    && (d.active.Some? ==>
      var id := d.active.value.generation.id;
      e.active == d.active || (id in e.archives && e.archives[id] == d.active.value))
    && (d.policy.completed.Some? ==> e.policy.completed.Some?)
  }

  lemma PolicyKeeps(d: Disk, policy: Policy, key: Key, idempotent: bool, budget: nat)
    ensures
      var e := Performed(d, PolicyWrites(policy, key, idempotent), budget);
      e == d.(policy := e.policy) && (e.policy == d.policy || e.policy.completed == Some(key))
  {
    PerformedTwice(d, PolicyWrites(policy, key, idempotent), budget);
  }

  lemma ReplacementKeeps(d: Disk, key: Key, file: File, policy: Policy, idempotent: bool, budget: nat)
    requires d.active == Some(key.file) && key.file.generation.id == key.id && key.id in d.archives && d.archives[key.id] == key.file
    ensures Keeps(d, Performed(d, [WriteActive(file)] + PolicyWrites(policy, key, idempotent), budget))
  {
    PerformedStep(d, WriteActive(file), PolicyWrites(policy, key, idempotent), budget);
    if budget > 0 {
      PolicyKeeps(Written(d, WriteActive(file)), policy, key, idempotent, budget - 1);
    }
  }

  lemma KeepsIsTransitive(a: Disk, b: Disk, c: Disk)
    requires Keeps(a, b) && Keeps(b, c)
    ensures Keeps(a, c)
  {}

  lemma BeginningKeeps(d: Disk, key: Key, v: View, tracked: Tracked, budget: nat)
    requires d.active == Some(key.file) && key.file.generation.id == key.id && key !in d.receipts
    ensures Keeps(d, Performed(d, Begin(d, key, v, tracked).writes, budget))
  {
    hide Keeps, PolicyWrites;
    assert Keeps(d, d) by { KeepsItself(d); }
    NothingPerformed(d, budget);
    var plan := Begin(d, key, v, tracked);
    if plan.outcome.Ok? {
      var first := if key.id in d.archives then [] else [WriteArchive(key.id, key.file)];
      var receipt := WriteReceipt(key, NewReceipt(key, tracked, v));
      var last := [WriteActive(File(Fresh(key, v.now), CANONICAL))] + PolicyWrites(d.policy, key, false);
      assert plan.writes == first + ([receipt] + last);
      PerformedConcat(d, first, [receipt] + last, budget);
      var archived := Performed(d, first, budget);
      if first != [] {
        PerformedStep(d, first[0], [], budget);
        assert first == [first[0]] + [];
        NothingPerformed(Written(d, first[0]), if budget > 0 then budget - 1 else 0);
      }
      var left: nat := if |first| <= budget then budget - |first| else 0;
      assert archived == d || archived == Archived(d, key);
      ArchivingKeeps(d, key);
      PerformedStep(archived, receipt, last, left);
      if left > 0 {
        ReceiptKeeps(archived, key, receipt.receipt);
        ReplacementKeeps(Written(archived, receipt), key, File(Fresh(key, v.now), CANONICAL), d.policy, false, left - 1);
        KeepsIsTransitive(archived, Written(archived, receipt), Performed(Written(archived, receipt), last, left - 1));
        KeepsIsTransitive(d, archived, Performed(Written(archived, receipt), last, left - 1));
      }
    }
  }

  lemma KeepsItself(d: Disk)
    ensures Keeps(d, d)
  {}

  lemma ArchivingKeeps(d: Disk, key: Key)
    ensures key.id !in d.archives ==> Keeps(d, Archived(d, key))
  {}

  lemma ReceiptKeeps(d: Disk, key: Key, r: Receipt)
    ensures key !in d.receipts ==> Keeps(d, Written(d, WriteReceipt(key, r)))
  {}

  lemma AttemptKeeps(d: Disk, key: Key, v: View, budget: nat)
    ensures Keeps(d, Attempted(d, key, v, budget))
  {
    hide Begin, Unready, ReceiptMatches, PolicyWrites, Keeps;
    KeepsItself(d);
    NothingPerformed(d, budget);
    if d.active.Some? {
      var active := d.active.value;
      if active != key.file {
        PolicyKeeps(d, d.policy, key, true, budget);
        var e := Performed(d, PolicyWrites(d.policy, key, true), budget);
        PolicyOnlyKeeps(d, e);
      } else if active.generation.id == key.id && active.generation.current.Some? {
        if key !in d.receipts {
          BeginningKeeps(d, key, v, active.generation.current.value, budget);
        } else if key.id in d.archives && d.archives[key.id] == key.file {
          ReplacementKeeps(d, key, File(d.receipts[key].replacement, CANONICAL), d.policy, true, budget);
        }
      }
    }
  }

  lemma PolicyOnlyKeeps(d: Disk, e: Disk)
    requires e == d.(policy := e.policy) && (e.policy == d.policy || e.policy.completed.Some?)
    ensures Keeps(d, e)
  {}

  /** One attempt at superseding one generation. */
  datatype Request = Request(key: Key, attempt: Attempt)

  function AfterRequests(d: Disk, requests: seq<Request>): Disk
    decreases |requests|
  {
    if requests == [] then d
    else AfterRequests(Attempted(d, requests[0].key, requests[0].attempt.view, requests[0].attempt.budget), requests[1..])
  }

  /**
   From any disk, over any requests to supersede any generations, each dying wherever it does: archives and
   receipts are never rewritten, the exact bytes of the generation file stay in the active file or in its
   archive, and a completion once bound is never cleared.
   */
  lemma {:induction false} NothingIsLost(d: Disk, requests: seq<Request>)
    ensures Keeps(d, AfterRequests(d, requests))
    decreases |requests|
  {
    hide Attempted, Keeps;
    if requests == [] {
      KeepsItself(d);
    } else {
      var first := requests[0];
      var e := Attempted(d, first.key, first.attempt.view, first.attempt.budget);
      AttemptKeeps(d, first.key, first.attempt.view, first.attempt.budget);
      NothingIsLost(e, requests[1..]);
      KeepsIsTransitive(d, e, AfterRequests(d, requests));
    }
  }
}

/** Exactly when a generation may be superseded, and what a supersession that succeeds leaves behind. */
module SupersessionOutcomes {
  import opened Outcomes
  import opened Supersession
  import opened SupersessionCrashes

  /** Refill is paused, the host is healthy with nothing running, queued or on its way, nothing is prepared, and the attempt's fate is unclear. */
  predicate Quiet(policy: Policy, g: Generation, v: View) {
    && !policy.enabled && policy.desired == 0 && v.healthy && v.running == 0 && v.queued == 0 && v.awaiting == 0
    && !g.prepared && v.verdict.category.Unclear?
  }

  /** The receipt is the one this request would have written for this attempt and verdict, at the time it gives. */
  predicate IsReceiptOf(r: Receipt, key: Key, tracked: Tracked, verdict: Verdict, v: View) {
    r == NewReceipt(key, tracked, v.(verdict := verdict, now := r.supersededAt))
  }

  /** The generation to replace is the active one. */
  predicate MayReplace(d: Disk, key: Key, v: View) {
    && d.active == Some(key.file) && key.file.generation.id == key.id && key.file.generation.current.Some?
    && Quiet(d.policy, key.file.generation, v) && (key.id in d.archives ==> d.archives[key.id] == key.file)
    && (key in d.receipts ==>
      && key.id in d.archives && IsReceiptOf(d.receipts[key], key, key.file.generation.current.value, v.verdict, v)
      && d.policy.completed in {None, Some(key)})
  }

  /** The generation was replaced for this very request, and its completion is bound or may be bound now. */
  predicate MayResume(d: Disk, key: Key, v: View) {
    && d.active.Some? && d.active.value != key.file && key in d.receipts
    && key.id in d.archives && d.archives[key.id] == key.file && key.file.generation.id == key.id && key.file.generation.current.Some?
    && var r := d.receipts[key];
    && IsReceiptOf(r, key, key.file.generation.current.value, r.verdict, v) && d.active.value.generation.id == r.newId
    && (d.policy.completed == Some(key)
        || (d.policy.completed.None? && d.active.value.generation == r.replacement && v.verdict == r.verdict
            && Quiet(d.policy, key.file.generation, v)))
  }

  lemma UnreadyExactly(policy: Policy, g: Generation, v: View)
    ensures Unready(policy, g, v).None? <==> Quiet(policy, g, v)
  {}

  lemma ReceiptExactly(r: Receipt, key: Key, tracked: Tracked, verdict: Verdict, v: View)
    ensures ReceiptMatches(r, key, tracked, verdict, v) <==> IsReceiptOf(r, key, tracked, verdict, v)
  {}

  /**
   A supersession succeeds exactly if the generation named is active and may be replaced, or was replaced for this very
   request; it reports earlier work exactly if there was a receipt; and it writes nothing unless everything is quiet.
   */
  lemma SupersessionDecided(d: Disk, key: Key, v: View)
    ensures Supersede(d, key, v).outcome.Ok? <==> MayReplace(d, key, v) || MayResume(d, key, v)
    ensures Supersede(d, key, v).outcome.Ok? ==> (Supersede(d, key, v).outcome.value <==> key in d.receipts)
    ensures Supersede(d, key, v).writes != [] ==> Supersede(d, key, v).outcome.Ok? && Quiet(d.policy, key.file.generation, v)
  {
    UnreadyExactly(d.policy, key.file.generation, v);
    if key.file.generation.current.Some? && key in d.receipts {
      var tracked, r := key.file.generation.current.value, d.receipts[key];
      ReceiptExactly(r, key, tracked, v.verdict, v);
      ReceiptExactly(r, key, r.tracked, r.verdict, v);
      ReceiptExactly(r, key, tracked, r.verdict, v);
    }
    hide Unready, ReceiptMatches, Quiet, IsReceiptOf, PolicyWrites;
  }

  /** The old file archived, the receipt of the request written, its fresh generation active, and the completion bound. */
  predicate Superseded(t: Disk, key: Key, v: View) {
    && key.id in t.archives && t.archives[key.id] == key.file
    && key in t.receipts && key.file.generation.current.Some?
    && IsReceiptOf(t.receipts[key], key, key.file.generation.current.value, t.receipts[key].verdict, v)
    && t.active.Some? && t.active.value.generation.id == t.receipts[key].newId && t.policy.completed == Some(key)
  }

  /**
   Once it succeeds, the request is carried out; if the active generation was replaced or the policy changed on the way,
   everything was quiet, and refill is enabled at capacity one on the fresh generation.
   */
  lemma SuccessSupersedes(d: Disk, key: Key, v: View)
    requires Supersede(d, key, v).outcome.Ok?
    ensures
      var t := Attempted(d, key, v, 5);
      && Superseded(t, key, v)
      && (t.active != d.active || t.policy != d.policy ==>
        && Quiet(d.policy, key.file.generation, v) && t.policy.enabled && t.policy.desired == 1
        && t.active.value.generation == Fresh(key, t.receipts[key].supersededAt))
  {
    SupersessionDecided(d, key, v);
    if MayReplace(d, key, v) {
      if key in d.receipts {
        FinishedSupersedes(d, key, v);
      } else {
        BegunSupersedes(d, key, v);
      }
    } else {
      ResumedSupersedes(d, key, v);
    }
    hide Supersede, Quiet, IsReceiptOf;
  }

  lemma BegunSupersedes(d: Disk, key: Key, v: View)
    requires MayReplace(d, key, v) && key !in d.receipts
    ensures
      var t := Attempted(d, key, v, 5);
      && Superseded(t, key, v) && t.policy.enabled && t.policy.desired == 1
      && t.active.value.generation == Fresh(key, t.receipts[key].supersededAt)
  {
    assert Startable(d, key, v);
    StartIsEarly(d, key);
    EarlyAttempt(d, key, v, d, v, 5);
    hide Supersede, Attempted, Early, Underway;
  }

  lemma FinishedSupersedes(d: Disk, key: Key, v: View)
    requires MayReplace(d, key, v) && key in d.receipts
    ensures
      var t := Attempted(d, key, v, 5);
      && Superseded(t, key, v) && t.policy.enabled && t.policy.desired == 1
      && t.active.value.generation == Fresh(key, t.receipts[key].supersededAt)
  {
    var tracked, r := key.file.generation.current.value, d.receipts[key];
    UnreadyExactly(d.policy, key.file.generation, v);
    ReceiptExactly(r, key, tracked, v.verdict, v);
    hide Unready, ReceiptMatches, Quiet;
    var writes := [WriteActive(File(r.replacement, CANONICAL))] + PolicyWrites(d.policy, key, true);
    assert Supersede(d, key, v).writes == writes;
    PerformedThree(d, writes);
  }

  lemma ResumedSupersedes(d: Disk, key: Key, v: View)
    requires MayResume(d, key, v)
    ensures
      var t := Attempted(d, key, v, 5);
      && Superseded(t, key, v)
      && (t.active != d.active || t.policy != d.policy ==>
        && t.policy.enabled && t.policy.desired == 1 && t.active.value.generation == Fresh(key, t.receipts[key].supersededAt))
  {
    var tracked, r := key.file.generation.current.value, d.receipts[key];
    UnreadyExactly(d.policy, key.file.generation, v);
    ReceiptExactly(r, key, tracked, r.verdict, v);
    hide Unready, ReceiptMatches, Quiet;
    if d.policy.completed == Some(key) {
      assert Supersede(d, key, v).writes == [];
      NothingPerformed(d, 5);
    } else {
      assert Supersede(d, key, v).writes == PolicyWrites(d.policy, key, true);
      PerformedTwice(d, PolicyWrites(d.policy, key, true), 5);
    }
  }

  lemma PerformedThree(d: Disk, writes: seq<Write>)
    requires |writes| == 3
    ensures Performed(d, writes, 5) == Written(Written(Written(d, writes[0]), writes[1]), writes[2])
  {
    hide Written;
    var a := Written(d, writes[0]);
    assert writes[1..] == [writes[1], writes[2]];
    PerformedTwice(a, writes[1..], 4);
  }
}

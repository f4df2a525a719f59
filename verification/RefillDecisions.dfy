/** What a reconcile may do on what it read: which evidence gives an attempt up, and what a dispatch needs. */
module RefillDecisions {
  import opened Outcomes
  import opened PacketSelection
  import opened RefillDispatch
  import opened DecisionBasis
  import opened RefillPlan
  import CanonicalClassification

  // ---- what the evidence says of the current attempt ----

  /** There is no canonical record of the attempt. */
  predicate Unspoken(a: AttemptReads) { a.canonical == Ok(CanonicalClassification.NoVerdict) }

  predicate Says(a: AttemptReads, category: CanonicalClassification.Category) {
    a.canonical.Ok? && a.canonical.value.Classified? && a.canonical.value.category == category
  }

  /** Without a canonical record: the job has run to a completed archive that the publisher has not taken up. */
  predicate Downstream(a: AttemptReads) { Unspoken(a) && !a.queued && a.archive.CompletedArchive? && !a.publisherSeen }

  /** The item is over: by a terminal verdict, by the publisher, or by the fate of its revision. */
  predicate Ended(a: AttemptReads) {
    || Says(a, CanonicalClassification.ItemTerminal)
    || (Unspoken(a) && !a.queued && a.archive.CompletedArchive? && a.publisherSeen)
    || (Downstream(a) && a.revision.Some? && a.revision.value.Terminal?)
  }

  predicate Underway(a: AttemptReads) {
    || Says(a, CanonicalClassification.AttemptInFlight)
    || (Unspoken(a) && (a.queued || (a.archive.NoArchive? && a.inFeed)))
    || (Downstream(a) && (a.revision == Some(InFlight) || (a.revision.None? && !a.gateRejected)))
  }

  /** A provider failure ended the execution, or that of its revision. */
  predicate ProviderFailed(a: AttemptReads, retryable: bool, at: Option<nat>) {
    || (Unspoken(a) && !a.queued && a.archive == FailedArchive(ProviderFailure(retryable, at)))
    || (Downstream(a) && a.revision == Some(ProviderFailure(retryable, at)))
  }

  /** The evidence is stale, missing, blocked or contradictory. */
  predicate Undecided(a: AttemptReads) {
    || a.canonical.Err? || a.canonical == Ok(CanonicalClassification.MissingSnapshot)
    || Says(a, CanonicalClassification.Unknown)
    || (Unspoken(a) && !a.queued && a.archive.NoArchive? && !a.inFeed)
    || (Unspoken(a) && !a.queued && a.archive.FailedArchive? && !a.archive.failure.ProviderFailure?)
    || (Downstream(a) && (a.revision == Some(Unclear) || (a.revision.None? && a.gateRejected)))
  }

  /** The failure may be retried, its time has come, and the generation's one retry is unused. */
  ghost predicate RetryDue(g: Generation, v: View) {
    && !g.retryConsumed
    && exists at: Option<nat> ::
      && ProviderFailed(v.attempt, true, at)
      && (if at.Some? then v.now >= at.value else g.retryAt.Some? && v.now >= g.retryAt.value)
  }

  // ---- what every write needs ----

  /** Refill is enabled at capacity one, the host is healthy and idle, and every repository can take a review. */
  predicate Clear(v: View) {
    && v.policy.enabled && v.policy.desired == 1 && v.healthy
    && v.running == 0 && v.queued == 0 && v.awaiting == 0 && v.policy.queueCap > 0
    && forall repository :: repository in v.reviews ==> v.reviews[repository] < v.policy.reviewCap
  }

  /** No job file claims this generation in a form that cannot be read, and a prepared dispatch may go on. */
  predicate Trusted(g: Generation, v: View) {
    && (forall i :: 0 <= i < |v.sightings| ==> v.sightings[i].claim != BadClaim(g.id))
    && (g.prepared.Some? ==> BasisError(v.recoverCheck, g.prepared.value).None? && !HasConflict(g, v.sightings, g.prepared.value))
  }

  /** A dispatch prepared before is found as it was prepared, or its basis still holds. */
  predicate Resumed(g: Generation, v: View) {
    g.prepared.Some? ==> HasMatch(g, v.sightings, g.prepared.value) || BasisError(v.replayCheck, g.prepared.value).None?
  }

  /** Someone has this job already. */
  predicate Taken(job: Job, r: BuildReads) { job in r.running + r.pending + r.archived }

  /** The work item of the current attempt, of the prepared one, or of one that a job file claims. */
  predicate Known(g: Generation, v: View, item: string) {
    || (g.current.Some? && g.current.value.work.item == item)
    || (g.prepared.Some? && g.prepared.value.attempt.work.item == item)
    || exists i :: 0 <= i < |v.sightings| && v.sightings[i].claim.AttemptClaim? && v.sightings[i].claim.generation == g.id
                   && v.sightings[i].claim.work.item == item
  }

  ghost predicate Excludes(g: Generation, v: View, h: Generation) {
    && (forall item :: item in g.exclusions ==> item in h.exclusions)
    && (forall item :: item in h.exclusions && item !in g.exclusions ==> Clear(v) && Trusted(g, v) && Ended(v.attempt) && Known(g, v, item))
  }

  /** A dispatch not prepared before. */
  ghost predicate Prepares(g: Generation, v: View, p: Prepared) {
    && Clear(v) && Trusted(g, v) && Resumed(g, v) && !v.jit.JitBlocked?
    && v.dry.refusal.None? && !Taken(p.attempt.job, v.dry) && BasisError(v.commitCheck, p).None?
    && match p.attempt.reason
       case Initial => Ended(v.attempt) || g.current.None?
       case ProviderRetry => RetryDue(g, v)
  }

  ghost predicate Submits(g: Generation, v: View, job: Job) {
    && Clear(v) && Trusted(g, v) && Resumed(g, v) && v.submit.refusal.None? && !Taken(job, v.submit) && job !in v.submit.feed
    && (g.prepared.None? ==> Ended(v.attempt) || g.current.None? || RetryDue(g, v))
  }

  ghost predicate Justified(g: Generation, v: View, write: Write) {
    match write
    case Push(job) => Submits(g, v, job)
    case Save(h, _) =>
      && Excludes(g, v, h)
      && (h.prepared.Some? && h.prepared != g.prepared ==> Prepares(g, v, h.prepared.value))
      && (h.retryConsumed && !g.retryConsumed ==> RetryDue(g, v))
  }

  ghost predicate AllJustified(g: Generation, v: View, writes: seq<Write>) {
    forall i :: 0 <= i < |writes| ==> Justified(g, v, writes[i])
  }

  lemma JustifiedTogether(g: Generation, v: View, a: seq<Write>, b: seq<Write>)
    requires AllJustified(g, v, a) && AllJustified(g, v, b)
    ensures AllJustified(g, v, a + b)
  {
    hide Justified;
  }

  // ---- the phases before a dispatch ----

  /** Recovery changes nothing a decision rests on but which attempt is current. */
  predicate Recovers(g: Generation, v: View, h: Generation) {
    && h.id == g.id && h.exclusions == g.exclusions && h.retryConsumed == g.retryConsumed && h.retryAt == g.retryAt
    && (h.prepared == g.prepared || (h.prepared.None? && g.prepared.Some? && HasMatch(g, v.sightings, g.prepared.value)))
    && (h.current == g.current || (h.current.Some? && Known(g, v, h.current.value.work.item)))
  }

  lemma RecoveredIsJustified(g: Generation, v: View, h: Generation, relies: set<Job>)
    requires Recovers(g, v, h)
    ensures AllJustified(g, v, [Save(h, relies)])
  {
    hide Known, Clear, Trusted, Ended;
  }

  lemma PreparedRecovers(g: Generation, v: View, h: Generation, check: Evidence)
    requires Recovers(g, v, h)
    ensures
      var phase := RecoverPrepared(h, check, v.sightings);
      && AllJustified(g, v, phase.writes)
      && (phase.Continue? ==>
        && Recovers(g, v, phase.generation)
        && (h.prepared.Some? ==> BasisError(check, h.prepared.value).None? && !HasConflict(h, v.sightings, h.prepared.value))
        && (check == v.replayCheck ==> Resumed(g, v)))
  {
    hide Known, BasisError, HasConflict, HasMatch, AllJustified, Justified;
    var phase := RecoverPrepared(h, check, v.sightings);
    if h.prepared.Some? {
      assert Known(g, v, h.prepared.value.attempt.work.item) by { assert h.prepared == g.prepared; KnownPrepared(g, v); }
      RecoveredIsJustified(g, v, Block(h), {});
      MatchesAlike(g, h, v.sightings, h.prepared.value);
      if phase.Continue? {
        RecoveredIsJustified(g, v, phase.generation, {});
      }
    }
    NothingIsJustified(g, v);
  }

  lemma MatchesAlike(g: Generation, h: Generation, sightings: seq<Sighting>, p: Prepared)
    requires h.id == g.id
    ensures HasMatch(h, sightings, p) == HasMatch(g, sightings, p)
  {}

  lemma KnownPrepared(g: Generation, v: View)
    ensures g.prepared.Some? ==> Known(g, v, g.prepared.value.attempt.work.item)
  {}

  lemma NothingIsJustified(g: Generation, v: View)
    ensures AllJustified(g, v, [])
  {}

  lemma {:induction false} StrayIsKnown(g: Generation, h: Generation, v: View, k: nat)
    requires h.id == g.id && k <= |v.sightings|
    ensures forall a :: a in Strays(h, v.sightings[k..]) ==> Known(g, v, a.work.item)
    decreases |v.sightings| - k
  {
    hide Known;
    if k < |v.sightings| {
      assert v.sightings[k..][0] == v.sightings[k] && v.sightings[k..][1..] == v.sightings[k + 1..];
      StrayIsKnown(g, h, v, k + 1);
      if IsStray(h, v.sightings[k]) {
        assert Known(g, v, Claimed(v.sightings[k]).work.item) by { ClaimIsKnown(g, v, k); }
      }
    }
  }

  lemma ClaimIsKnown(g: Generation, v: View, k: nat)
    requires k < |v.sightings| && v.sightings[k].claim.AttemptClaim? && v.sightings[k].claim.generation == g.id
    ensures Known(g, v, v.sightings[k].claim.work.item)
  {}

  lemma UnrecordedRecovers(g: Generation, v: View, h: Generation)
    requires Recovers(g, v, h)
    ensures
      var phase := RecoverUnrecorded(h, v.sightings);
      && AllJustified(g, v, phase.writes)
      && (phase.Continue? ==>
        && Recovers(g, v, phase.generation) && (forall i :: 0 <= i < |v.sightings| ==> v.sightings[i].claim != BadClaim(g.id)))
  {
    hide Known, AllJustified, Justified, Strays;
    StrayIsKnown(g, h, v, 0);
    assert v.sightings[0..] == v.sightings;
    var phase := RecoverUnrecorded(h, v.sightings);
    RecoveredIsJustified(g, v, Block(h).(recoveryError := true), {});
    RecoveredIsJustified(g, v, h.(recoveryError := false), {});
    if phase.Continue? && Strays(h, v.sightings) != [] {
      assert Strays(h, v.sightings)[0] in Strays(h, v.sightings);
      RecoveredIsJustified(g, v, phase.generation, {});
    }
    NothingIsJustified(g, v);
  }

  // ---- dispatches ----

  lemma BuiltIsFree(g: Generation, ordinal: nat, retry: nat, exclusions: seq<string>, item: string, submit: bool, r: BuildReads)
    ensures
      var b := Build(g, ordinal, retry, exclusions, item, submit, r);
      && (b.Constructed? ==> r.refusal.None? && !Taken(b.job, r))
      && (b.InFeed? && b.isNew ==> r.refusal.None? && !Taken(b.job, r) && b.job !in r.feed)
  {
    hide Select;
  }

  lemma ReplayIsJustified(g: Generation, v: View, h: Generation)
    requires Recovers(g, v, h) && h.prepared.Some? && Clear(v) && Trusted(g, v) && Resumed(g, v)
    ensures AllJustified(g, v, Replay(h, h.prepared.value, v.submit).writes)
  {
    hide Known, Clear, Trusted, Build, Ended, Taken, RetryDue, Resumed, HasMatch;
    var p := h.prepared.value;
    var built := Build(h, p.attempt.ordinal, p.attempt.retry, p.exclusions, p.attempt.work.item, true, v.submit);
    BuiltIsFree(h, p.attempt.ordinal, p.attempt.retry, p.exclusions, p.attempt.work.item, true, v.submit);
    var writes := Replay(h, p, v.submit).writes;
    forall i | 0 <= i < |writes| ensures Justified(g, v, writes[i]) {
      if writes[i].Save? {
        SavedUnprepared(g, v, h, writes[i].generation);
      }
    }
  }

  /** Saving what recovery left, blocked or with the prepared attempt recorded, excludes and prepares nothing. */
  lemma SavedUnprepared(g: Generation, v: View, h: Generation, t: Generation)
    requires h.exclusions == g.exclusions && h.retryConsumed == g.retryConsumed && (h.prepared == g.prepared || h.prepared.None?)
    requires t.exclusions == h.exclusions && t.retryConsumed == h.retryConsumed && (t.prepared == h.prepared || t.prepared.None?)
    ensures forall relies :: Justified(g, v, Save(t, relies))
  {
    hide Known, Clear, Trusted, Ended;
  }

  /** What a dispatch of this kind starts from. */
  ghost predicate MayPrepare(g: Generation, v: View, h: Generation, reason: Reason) {
    && Clear(v) && Trusted(g, v) && Resumed(g, v) && h.prepared.None? && h.retryConsumed == g.retryConsumed && Excludes(g, v, h)
    && match reason
       case Initial => Ended(v.attempt) || g.current.None?
       case ProviderRetry => RetryDue(g, v)
  }

  lemma ConclusionIsJustified(g: Generation, v: View, h: Generation, ordinal: nat, retry: nat, reason: Reason, built: Built)
    requires Excludes(g, v, h) && (h.retryConsumed && !g.retryConsumed ==> RetryDue(g, v))
    requires h.prepared.Some? && h.prepared != g.prepared ==> Prepares(g, v, h.prepared.value)
    ensures AllJustified(g, v, Conclude(h, ordinal, retry, reason, built).writes)
  {
    hide Clear, Trusted, Ended, Known, RetryDue, Prepares;
  }

  lemma PreparedIsJustified(g: Generation, v: View, h: Generation, p: Prepared, relies: set<Job>)
    requires MayPrepare(g, v, h, p.attempt.reason) && !v.jit.JitBlocked? && v.dry.refusal.None? && !Taken(p.attempt.job, v.dry)
    ensures AllJustified(g, v, DispatchPrepared(h, v, p, relies).writes)
  {
    hide Clear, Trusted, Ended, Known, RetryDue, Build, BasisError, Excludes, Taken, Conclude;
    var a := p.attempt;
    if BasisError(v.commitCheck, p).Some? {
      ExcludesAlike(g, v, h, Block(h));
      ConclusionIsJustified(g, v, Block(h), a.ordinal, a.retry, a.reason, Refused(IsBlocked));
      JustifiedTogether(g, v, [Save(Block(h), {})], Conclude(Block(h), a.ordinal, a.retry, a.reason, Refused(IsBlocked)).writes);
    } else {
      var t := Preparing(h, p);
      assert Prepares(g, v, p);
      ExcludesAlike(g, v, h, t);
      ExcludesAlike(g, v, h, Block(t));
      var built := Build(t, a.ordinal, a.retry, p.exclusions, a.work.item, true, v.submit);
      BuiltIsFree(t, a.ordinal, a.retry, p.exclusions, a.work.item, true, v.submit);
      var sent := SubmitPrepared(t, p, built);
      ConclusionIsJustified(g, v, sent.generation, a.ordinal, a.retry, a.reason, built);
      assert AllJustified(g, v, [Save(t, relies)] + sent.writes) by { hide Prepares; }
      JustifiedTogether(g, v, [Save(t, relies)] + sent.writes, Conclude(sent.generation, a.ordinal, a.retry, a.reason, built).writes);
    }
  }

  lemma ExcludesAlike(g: Generation, v: View, h: Generation, t: Generation)
    requires Excludes(g, v, h) && t.exclusions == h.exclusions
    ensures Excludes(g, v, t)
  {}

  lemma DispatchIsJustified(g: Generation, v: View, h: Generation, reason: Reason, item: string, exclusions: seq<string>,
                            basis: Option<Basis>, relies: set<Job>)
    requires MayPrepare(g, v, h, reason) && !v.jit.JitBlocked?
    ensures AllJustified(g, v, Dispatch(h, v, reason, item, exclusions, basis, relies).writes)
  {
    hide Clear, Trusted, Ended, Known, RetryDue, Build, Excludes, Taken, Conclude, DispatchPrepared, AllJustified, Bind;
    var ordinal: nat, retry: nat := |h.sequence| + 1, if reason == ProviderRetry then 1 else 0;
    var dry := Build(h, ordinal, retry, exclusions, item, false, v.dry);
    BuiltIsFree(h, ordinal, retry, exclusions, item, false, v.dry);
    if dry.Constructed? {
      PreparedIsJustified(g, v, h, PreparedWith(h, reason, ordinal, retry, exclusions, dry, basis), relies);
    } else {
      ConclusionIsJustified(g, v, h, ordinal, retry, reason, dry);
    }
  }

  lemma ChoiceIsJustified(g: Generation, v: View, h: Generation, reason: Reason, item: string, basis: Option<Basis>, relies: set<Job>)
    requires MayPrepare(g, v, h, reason)
    ensures AllJustified(g, v, Choose(h, v, reason, item, basis, relies).writes)
  {
    hide Clear, Trusted, Ended, Known, RetryDue, Excludes, Dispatch;
    var exclusions := if item == "" then h.exclusions else Without(h.exclusions, item);
    ExcludesAlike(g, v, h, Block(h));
    if !v.jit.JitBlocked? {
      DispatchIsJustified(g, v, h, reason, item, exclusions, basis, relies);
      JustifiedTogether(g, v, [Save(h, relies)], Dispatch(h, v, reason, item, exclusions, basis, relies).writes);
    }
  }

  lemma ProceedingIsJustified(g: Generation, v: View, h: Generation)
    requires Recovers(g, v, h) && h.prepared.None? && Clear(v) && Trusted(g, v) && Resumed(g, v)
    ensures AllJustified(g, v, Proceed(h, v).writes)
  {
    hide Clear, Trusted, Known, Choose, AllJustified, Justified, Excludes;
    assert Excludes(g, v, h) by { ExcludesItself(g, v, h); }
    match h.current
    case None => ChoiceIsJustified(g, v, h, Initial, "", None, {});
    case Some(c) =>
      match ClassifyAttempt(v.attempt)
      case InFlight => RecoveredIsJustified(g, v, h.(state := Occupied), {});
      case ProviderFailure(retryable, at) =>
        var t := h.(retryAt := if at.Some? then at else h.retryAt);
        assert ProviderFailed(v.attempt, retryable, at);
        ExcludesAlike(g, v, h, t);
        if retryable && t.retryAt.Some? && v.now >= t.retryAt.value && !h.retryConsumed {
          ChoiceIsJustified(g, v, t, ProviderRetry, c.work.item, None, {c.job});
        } else {
          BackpressureIsJustified(g, v, t.(state := Backpressure));
        }
      case Terminal(basis) =>
        var t := ItemExcluded(h, c.work.item, basis);
        ItemExcludedIsJustified(g, v, h, c.work.item, basis);
        ChoiceIsJustified(g, v, t, Initial, "", basis, {c.job});
        TerminalIsJustified(g, v, t, c.job);
        JustifiedTogether(g, v, [Save(t, {c.job})], Choose(t, v, Initial, "", basis, {c.job}).writes);
      case Unclear => RecoveredIsJustified(g, v, Block(h), {});
  }

  lemma ExcludesItself(g: Generation, v: View, h: Generation)
    requires h.exclusions == g.exclusions
    ensures Excludes(g, v, h)
  {
    hide Known, Clear, Trusted, Ended;
  }

  lemma BackpressureIsJustified(g: Generation, v: View, t: Generation)
    requires t.exclusions == g.exclusions && t.prepared.None? && t.retryConsumed == g.retryConsumed
    ensures AllJustified(g, v, [Save(t, {})])
  {
    hide Known, Clear, Trusted, Ended;
  }

  lemma ItemExcludedIsJustified(g: Generation, v: View, h: Generation, item: string, basis: Option<Basis>)
    requires Recovers(g, v, h) && h.current.Some? && h.current.value.work.item == item && Clear(v) && Trusted(g, v) && Ended(v.attempt)
    ensures Excludes(g, v, ItemExcluded(h, item, basis))
  {
    assert Known(g, v, item);
    hide Clear, Trusted, Ended, Known;
  }

  lemma TerminalIsJustified(g: Generation, v: View, t: Generation, job: Job)
    requires Excludes(g, v, t) && t.prepared.None? && t.retryConsumed == g.retryConsumed
    ensures AllJustified(g, v, [Save(t, {job})])
  {
    hide Excludes;
  }

  // ---- the theorem ----

  lemma RecoveryIsJustified(g: Generation, v: View, h: Generation)
    requires Recovers(g, v, h) && v.policy.enabled && v.policy.desired == 1 && v.healthy
    requires g.prepared.Some? ==> BasisError(v.recoverCheck, g.prepared.value).None? && !HasConflict(g, v.sightings, g.prepared.value)
    ensures AllJustified(g, v, AfterRecovery(h, v).writes)
  {
    hide Known, AllJustified, BasisError, HasConflict, Replay, Proceed, RecoverPrepared, RecoverUnrecorded, Ended;
    UnrecordedRecovers(g, v, h);
    match RecoverUnrecorded(h, v.sightings)
    case Done(_, _) =>
    case Continue(first, t) =>
      if Occupancy(v).None? {
        assert Clear(v) && Trusted(g, v);
        PreparedRecovers(g, v, t, v.replayCheck);
        match RecoverPrepared(t, v.replayCheck, v.sightings)
        case Done(second, _) => JustifiedTogether(g, v, first, second);
        case Continue(second, u) =>
          hide Clear, Trusted, Recovers, Occupancy;
          if u.prepared.Some? {
            ReplayIsJustified(g, v, u);
            JustifiedTogether(g, v, second, Replay(u, u.prepared.value, v.submit).writes);
          } else {
            ProceedingIsJustified(g, v, u);
            JustifiedTogether(g, v, second, Proceed(u, v).writes);
          }
          JustifiedTogether(g, v, first, Advance(t, v).writes);
      }
  }

  /**
   Whatever a reconcile reads: it excludes an item only when the attempt at it ended, it prepares and submits
   only with refill enabled at capacity one on a healthy and idle host with no repository at its review cap,
   no job file in doubt, admission granted and the job nowhere yet, on a basis that was checked; a first
   attempt only after the current one ended, and the one provider retry only when it is due.
   */
  lemma WritesAreJustified(g: Generation, v: View)
    ensures AllJustified(g, v, Reconcile(Some(g), v).writes)
  {
    hide Known, AllJustified, BasisError, HasConflict, AfterRecovery, RecoverPrepared, Justified, Occupancy;
    NothingIsJustified(g, v);
    if !v.policy.enabled || v.policy.desired == 0 {
      RecoveredIsJustified(g, v, g.(state := Paused), {});
    } else if v.policy.desired == 1 && v.healthy {
      PreparedRecovers(g, v, g, v.recoverCheck);
      match RecoverPrepared(g, v.recoverCheck, v.sightings)
      case Done(_, _) =>
      case Continue(first, h) =>
        RecoveryIsJustified(g, v, h);
        JustifiedTogether(g, v, first, AfterRecovery(h, v).writes);
    }
  }

  // ---- what happens to the current attempt ----

  /** Everything read is one of four things. */
  lemma EvidenceIsPartitioned(a: AttemptReads)
    ensures Ended(a) <==> ClassifyAttempt(a).Terminal?
    ensures Underway(a) <==> ClassifyAttempt(a).InFlight?
    ensures Undecided(a) <==> ClassifyAttempt(a).Unclear?
    ensures forall retryable, at :: ProviderFailed(a, retryable, at) <==> ClassifyAttempt(a) == ProviderFailure(retryable, at)
  {}

  /** Free capacity, nothing prepared, and every job file of the generation is on record. */
  predicate Steady(g: Generation, v: View) {
    && Clear(v) && g.prepared.None?
    && forall i :: 0 <= i < |v.sightings| ==> v.sightings[i].claim != BadClaim(g.id) && !IsStray(g, v.sightings[i])
  }

  /** A note of an earlier recovery error is cleared first. */
  function Cleared(g: Generation): seq<Write> { if g.recoveryError then [Save(g.(recoveryError := false), {})] else [] }

  lemma {:induction false} NoStrays(g: Generation, sightings: seq<Sighting>)
    requires forall i :: 0 <= i < |sightings| ==> !IsStray(g, sightings[i])
    ensures Strays(g, sightings) == []
    decreases |sightings|
  {
    hide IsStray;
    if sightings != [] {
      NoStrays(g, sightings[1..]);
    }
  }

  lemma SteadyProceeds(g: Generation, v: View)
    requires Steady(g, v)
    ensures Reconcile(Some(g), v) == Prefixed(Cleared(g), Proceed(g.(recoveryError := false), v))
  {
    NoStrays(g, v.sightings);
    assert Occupancy(v).None?;
    hide Proceed, Strays, IsStray, Occupancy;
    var h := g.(recoveryError := false);
    assert RecoverUnrecorded(g, v.sightings) == Continue(Cleared(g), h);
    assert Advance(h, v) == Prefixed([], Proceed(h, v));
    assert [] + Proceed(h, v).writes == Proceed(h, v).writes;
    assert [] + AfterRecovery(g, v).writes == AfterRecovery(g, v).writes;
  }

  function BusyStatus(v: View): Status {
    if v.queued + v.awaiting >= v.policy.queueCap then IsBackpressured
    else if v.running > 0 then IsRunning
    else if v.queued + v.awaiting > 0 then IsQueued
    else IsBackpressured
  }

  /**
   Without free capacity, and with every job file on record, a reconcile only keeps its books: it notes that it is
   paused, or clears an earlier recovery error and reports what stops it.
   */
  lemma BusyRefillWaits(g: Generation, v: View)
    requires !Clear(v) && g.prepared.None?
    requires forall i :: 0 <= i < |v.sightings| ==> v.sightings[i].claim != BadClaim(g.id) && !IsStray(g, v.sightings[i])
    ensures
      var plan := Reconcile(Some(g), v);
      var paused, unfit := !v.policy.enabled || v.policy.desired == 0, v.policy.desired > 1 || !v.healthy;
      && (paused ==> plan == Plan(if g.state == Paused then [] else [Save(g.(state := Paused), {})], Report(IsPaused, FounderPaused)))
      && (!paused && unfit ==> plan.writes == [] && plan.report.status in {IsError, IsBlocked})
      && (!paused && !unfit ==> plan.writes == Cleared(g) && plan.report.status == BusyStatus(v))
  {
    NoStrays(g, v.sightings);
    hide Advance, Strays, IsStray;
    var h := g.(recoveryError := false);
    assert RecoverUnrecorded(g, v.sightings) == Continue(Cleared(g), h);
    assert [] + AfterRecovery(g, v).writes == AfterRecovery(g, v).writes;
  }

  /** The attempt is given up, its item excluded. */
  predicate GivesUp(g: Generation, write: Write) {
    && g.current.Some? && write.Save? && write.generation.current.None?
    && (g.current.value.work.item != "" ==> g.current.value.work.item in write.generation.exclusions)
  }

  /** A dispatch leaves the current attempt alone until it records another. */
  lemma ChoiceKeepsCurrent(h: Generation, v: View, reason: Reason, item: string, basis: Option<Basis>, relies: set<Job>)
    ensures
      var plan := Choose(h, v, reason, item, basis, relies);
      && (forall i :: 0 <= i < |plan.writes| && plan.writes[i].Save? ==>
            plan.writes[i].generation.current == h.current || plan.writes[i].generation.current.Some?)
      && plan.report.reason in {CatalogFailed, BuildReconciled}
  {
    var exclusions := if item == "" then h.exclusions else Without(h.exclusions, item);
    hide Build, BasisError, Bind, Dispatch;
    DispatchKeepsCurrent(h, v, reason, item, exclusions, basis, relies);
  }

  lemma DispatchKeepsCurrent(h: Generation, v: View, reason: Reason, item: string, exclusions: seq<string>, basis: Option<Basis>, relies: set<Job>)
    ensures
      var plan := Dispatch(h, v, reason, item, exclusions, basis, relies);
      && (forall i :: 0 <= i < |plan.writes| && plan.writes[i].Save? ==>
            plan.writes[i].generation.current == h.current || plan.writes[i].generation.current.Some?)
      && plan.report.reason == BuildReconciled
  {
    hide Build, BasisError, Bind, PreparedWith, StatusOf, WithItem;
  }

  /**
   With free capacity, what was read of the current attempt decides exactly: it is given up and its item excluded
   if and only if it ended; refill waits if and only if it is under way; it backs off if and only if a provider
   failed and no retry is due; and it blocks, touching nothing else, if and only if the evidence is stale, missing,
   blocked or contradictory.
   */
  lemma CurrentAttemptDecides(g: Generation, v: View)
    requires Steady(g, v) && g.current.Some?
    ensures
      var plan, h := Reconcile(Some(g), v), g.(recoveryError := false);
      && ((exists i :: 0 <= i < |plan.writes| && GivesUp(g, plan.writes[i])) <==> Ended(v.attempt))
      && (plan == Plan(Cleared(g) + [Save(h.(state := Occupied), {})], Report(IsRunning, TrackedAttempt)) <==> Underway(v.attempt))
      && (plan == Plan(Cleared(g) + [Save(h.(state := Blocked), {})], Report(IsBlocked, AmbiguousAttempt)) <==> Undecided(v.attempt))
      && (plan.report == Report(IsBackpressured, ProviderDown) <==>
            (exists retryable, at :: ProviderFailed(v.attempt, retryable, at)) && !RetryDue(g, v))
      && (plan.report == Report(IsBackpressured, ProviderDown) ==>
            exists at :: plan.writes == Cleared(g) + [Save(h.(state := Backpressure, retryAt := at), {})])
  {
    SteadyProceeds(g, v);
    EvidenceIsPartitioned(v.attempt);
    var plan, h := Reconcile(Some(g), v), g.(recoveryError := false);
    hide Reconcile, Steady, Proceed, ClassifyAttempt, Ended, Underway, Undecided, ProviderFailed, RetryDue, GivesUp, Cleared;
    match ClassifyAttempt(v.attempt)
    case InFlight => WaitingDecides(g, v, Occupied, Report(IsRunning, TrackedAttempt));
    case Unclear => WaitingDecides(g, v, Blocked, Report(IsBlocked, AmbiguousAttempt));
    case ProviderFailure(retryable, at) =>
      assert ProviderFailed(v.attempt, retryable, at);
      FailureDecides(g, v, retryable, at);
    case Terminal(basis) => EndDecides(g, v, basis);
  }

  /** What a reconcile that goes on from here comes to. */
  function Proceeding(g: Generation, v: View): Plan { Prefixed(Cleared(g), Proceed(g.(recoveryError := false), v)) }

  lemma WaitingDecides(g: Generation, v: View, state: State, report: Report)
    requires g.current.Some?
    requires
      var category := ClassifyAttempt(v.attempt);
      || (category.InFlight? && state == Occupied && report == Report(IsRunning, TrackedAttempt))
      || (category.Unclear? && state == Blocked && report == Report(IsBlocked, AmbiguousAttempt))
    ensures
      var plan := Proceeding(g, v);
      && plan == Plan(Cleared(g) + [Save(g.(recoveryError := false).(state := state), {})], report)
      && forall i :: 0 <= i < |plan.writes| ==> !GivesUp(g, plan.writes[i])
  {
    hide ClassifyAttempt;
  }

  lemma FailureDecides(g: Generation, v: View, retryable: bool, at: Option<nat>)
    requires g.current.Some? && ClassifyAttempt(v.attempt) == ProviderFailure(retryable, at)
    ensures
      var plan, h := Proceeding(g, v), g.(recoveryError := false);
      && (forall i :: 0 <= i < |plan.writes| ==> !GivesUp(g, plan.writes[i]))
      && plan.report.reason !in {TrackedAttempt, AmbiguousAttempt}
      && (plan.report == Report(IsBackpressured, ProviderDown) <==> !RetryDue(g, v))
      && (!RetryDue(g, v) ==> exists at :: plan.writes == Cleared(g) + [Save(h.(state := Backpressure, retryAt := at), {})])
  {
    ProviderDecides(g, v, retryable, at);
    hide ClassifyAttempt, RetryDue, Choose;
    var h, c := g.(recoveryError := false), g.current.value;
    var t := h.(retryAt := if at.Some? then at else h.retryAt);
    ChoiceKeepsCurrent(t, v, ProviderRetry, c.work.item, None, {c.job});
    assert h.(state := Backpressure, retryAt := t.retryAt) == t.(state := Backpressure);
  }

  lemma EndDecides(g: Generation, v: View, basis: Option<Basis>)
    requires g.current.Some? && ClassifyAttempt(v.attempt) == Terminal(basis)
    ensures
      var plan := Proceeding(g, v);
      && (exists i :: 0 <= i < |plan.writes| && GivesUp(g, plan.writes[i]))
      && plan.report.reason in {CatalogFailed, BuildReconciled}
  {
    hide ClassifyAttempt, Choose;
    var h, c := g.(recoveryError := false), g.current.value;
    var t := ItemExcluded(h, c.work.item, basis);
    ChoiceKeepsCurrent(t, v, Initial, "", basis, {c.job});
    assert Proceeding(g, v).writes[|Cleared(g)|] == Save(t, {c.job});
    assert GivesUp(g, Proceeding(g, v).writes[|Cleared(g)|]);
  }

  /** Whether the failure just read may be retried now. */
  lemma ProviderDecides(g: Generation, v: View, retryable: bool, at: Option<nat>)
    requires ClassifyAttempt(v.attempt) == ProviderFailure(retryable, at)
    ensures
      var retryAt := if at.Some? then at else g.retryAt;
      RetryDue(g, v) <==> retryable && retryAt.Some? && v.now >= retryAt.value && !g.retryConsumed
  {
    EvidenceIsPartitioned(v.attempt);
    hide ClassifyAttempt, ProviderFailed;
    assert ProviderFailed(v.attempt, retryable, at);
  }

  // ---- a free slot is filled ----

  /** The builder selects this packet, its job is nowhere yet, and admission is granted. */
  predicate Offers(r: BuildReads, exclusions: seq<string>, packet: Packet, job: Job) {
    r.refusal.None? && Select(r.catalog, exclusions) == Ok(Some(packet)) && !Taken(job, r) && job !in r.feed
  }

  /** The dispatch that is due, and what it is bound to. */
  function DueDispatch(g: Generation, retry: bool, packet: Packet, exclusions: seq<string>, basis: Option<Basis>): Prepared {
    var n, reason := if retry then 1 else 0, if retry then ProviderRetry else Initial;
    var p := Prepared(g.id, Attempt(|g.sequence| + 1, n, reason, packet.work, JobFor(g, |g.sequence| + 1, n, packet.work)), exclusions, None);
    p.(basis := Bind(if basis.Some? then basis else g.lastBasis, p))
  }

  lemma DispatchIsMade(h: Generation, v: View, retry: bool, item: string, packet: Packet, exclusions: seq<string>, basis: Option<Basis>, relies: set<Job>)
    requires item == "" || item == packet.work.item
    requires
      var p := DueDispatch(h, retry, packet, exclusions, basis);
      && Offers(v.dry, exclusions, packet, p.attempt.job) && Offers(v.submit, exclusions, packet, p.attempt.job)
      && BasisError(v.commitCheck, p).None?
    ensures
      var p := DueDispatch(h, retry, packet, exclusions, basis);
      var t := Preparing(h, p);
      Dispatch(h, v, p.attempt.reason, item, exclusions, basis, relies) ==
        Plan([Save(t, relies), Push(p.attempt.job), Save(Recorded(t, p.attempt).(prepared := None, state := Submitted), {})],
             Report(IsQueued, BuildReconciled))
  {
    hide Select, BasisError, Bind, Recorded;
    var p := DueDispatch(h, retry, packet, exclusions, basis);
    var a, t := p.attempt, Preparing(h, p);
    var dry := Build(h, a.ordinal, a.retry, exclusions, item, false, v.dry);
    assert dry == Constructed(packet.work, a.job);
    assert PreparedWith(h, a.reason, a.ordinal, a.retry, exclusions, dry, basis) == p;
    var built := Build(t, a.ordinal, a.retry, exclusions, a.work.item, true, v.submit);
    assert built == InFeed(packet.work, a.job, true);
    hide Build, PreparedWith, Preparing;
    assert Attempt(a.ordinal, a.retry, a.reason, built.work, built.job) == a;
    assert [Save(t, relies)] + [Push(a.job)] + [Save(RecordBuilt(t, a.ordinal, a.retry, a.reason, built), {})]
        == [Save(t, relies), Push(a.job), Save(RecordBuilt(t, a.ordinal, a.retry, a.reason, built), {})];
    assert t.state == Dispatching by { MakesDispatching(h, p); }
  }

  lemma MakesDispatching(h: Generation, p: Prepared)
    ensures Preparing(h, p).state == Dispatching
  {}

  /** The items a dispatch may not take: the ended attempt's item joins them, a retried item leaves them. */
  function NextExclusions(g: Generation, retry: bool): seq<string> {
    if g.current.None? || g.current.value.work.item == "" then g.exclusions
    else if retry then Without(g.exclusions, g.current.value.work.item)
    else WithItem(g.exclusions, g.current.value.work.item)
  }

  /** The evidence of the attempt that ended, when it is canonical. */
  function EndBasis(g: Generation, a: AttemptReads): Option<Basis> {
    if g.current.Some? && a.canonical.Ok? && a.canonical.value.Classified? && a.canonical.value.category.ItemTerminal? then
      var s := a.canonical.value.snapshot;
      Some(BasisV1(s.identity, s, s.evidence, s.action, None))
    else if g.current.Some? && Downstream(a) && a.revision.Some? && a.revision.value.Terminal? then a.revision.value.basis
    else None
  }

  /** A dispatch is due: nothing is current, or the current attempt ended, or its retry is due. */
  ghost predicate WantsDispatch(g: Generation, v: View, retry: bool) {
    if retry then g.current.Some? && RetryDue(g, v) else g.current.None? || Ended(v.attempt)
  }

  /** Everything the dispatch needs is there. */
  predicate Dispatchable(g: Generation, v: View, retry: bool, packet: Packet, p: Prepared) {
    && !v.jit.JitBlocked? && (retry ==> g.current.Some? && packet.work.item == g.current.value.work.item)
    && p == DueDispatch(g, retry, packet, NextExclusions(g, retry), EndBasis(g, v.attempt))
    && Offers(v.dry, NextExclusions(g, retry), packet, p.attempt.job) && Offers(v.submit, NextExclusions(g, retry), packet, p.attempt.job)
    && BasisError(v.commitCheck, p).None? && !IsRecorded(g, p.attempt.job)
  }

  /** The writes end with the submission of the job, and its record. */
  predicate Fills(g: Generation, retry: bool, a: Attempt, writes: seq<Write>) {
    && |writes| >= 2 && writes[|writes| - 2] == Push(a.job) && writes[|writes| - 1].Save?
    && var t := writes[|writes| - 1].generation;
    && t.current == Some(a) && t.sequence == g.sequence + [a] && t.prepared.None? && t.state == Submitted
    && t.exclusions == (if retry then g.exclusions else NextExclusions(g, false)) && t.retryConsumed == (retry || g.retryConsumed)
  }

  /**
   A free slot is filled: when a dispatch is due and the catalog offers a packet for it, whose job is nowhere yet,
   and its basis is current, this reconcile prepares, submits and records exactly that job.
   */
  lemma FreeSlotIsFilled(g: Generation, v: View, retry: bool, packet: Packet, p: Prepared)
    requires Steady(g, v) && WantsDispatch(g, v, retry) && Dispatchable(g, v, retry, packet, p)
    ensures Reconcile(Some(g), v).report == Report(IsQueued, BuildReconciled)
    ensures Fills(g, retry, p.attempt, Reconcile(Some(g), v).writes)
  {
    var t, h := SlotOf(g, v, retry), g.(recoveryError := false);
    assert !v.jit.JitBlocked?;
    hide *;
    SteadyProceeds(g, v);
    ProceedsToDispatch(g, v, retry);
    SlotDispatches(g, v, retry, packet, p);
    var made := SlotDispatch(g, v, retry);
    EndsAlike(g, retry, p.attempt, Proceed(h, v), made);
    PrefixedEnds(g, retry, p.attempt, Cleared(g), Proceed(h, v));
  }

  lemma EndsAlike(g: Generation, retry: bool, a: Attempt, plan: Plan, made: Plan)
    requires EndsWith(plan, made) && Fills(g, retry, a, made.writes)
    ensures Fills(g, retry, a, plan.writes) && plan.report == made.report
  {
    hide NextExclusions;
    var n, m := |plan.writes|, |made.writes|;
    assert plan.writes[n - m..][m - 1] == plan.writes[n - 1] && plan.writes[n - m..][m - 2] == plan.writes[n - 2];
  }

  lemma PrefixedEnds(g: Generation, retry: bool, a: Attempt, first: seq<Write>, plan: Plan)
    requires Fills(g, retry, a, plan.writes)
    ensures Fills(g, retry, a, Prefixed(first, plan).writes) && Prefixed(first, plan).report == plan.report
  {
    hide NextExclusions;
  }

  /** The dispatch a reconcile comes to when one is due. */
  function SlotDispatch(g: Generation, v: View, retry: bool): Plan {
    Dispatch(SlotOf(g, v, retry), v, if retry then ProviderRetry else Initial, RetriedItem(g, retry), NextExclusions(g, retry),
             EndBasis(g, v.attempt), SlotRelies(g))
  }

  lemma SlotDispatches(g: Generation, v: View, retry: bool, packet: Packet, p: Prepared)
    requires Dispatchable(g, v, retry, packet, p)
    ensures SlotDispatch(g, v, retry).report == Report(IsQueued, BuildReconciled)
    ensures Fills(g, retry, p.attempt, SlotDispatch(g, v, retry).writes)
  {
    var t := SlotOf(g, v, retry);
    SlotKeeps(g, v, retry, packet);
    hide Offers, BasisError, EndBasis, NextExclusions, SlotOf, IsRecorded;
    DispatchIsMade(t, v, retry, RetriedItem(g, retry), packet, NextExclusions(g, retry), EndBasis(g, v.attempt), SlotRelies(g));
    RecordingFills(g, retry, t, p);
    hide Dispatch, DueDispatch, Preparing, Recorded, Fills, Dispatchable;
  }

  /** What the dispatch is made of does not depend on the steps before it. */
  lemma SlotKeeps(g: Generation, v: View, retry: bool, packet: Packet)
    ensures
      var t := SlotOf(g, v, retry);
      && t.sequence == g.sequence && t.retryConsumed == g.retryConsumed
      && t.exclusions == (if retry then g.exclusions else NextExclusions(g, false))
      && DueDispatch(t, retry, packet, NextExclusions(g, retry), EndBasis(g, v.attempt))
      == DueDispatch(g, retry, packet, NextExclusions(g, retry), EndBasis(g, v.attempt))
  {
    hide ClassifyAttempt, EndBasis, Bind;
  }

  lemma RecordingFills(g: Generation, retry: bool, t: Generation, p: Prepared)
    requires t.sequence == g.sequence && t.retryConsumed == g.retryConsumed && !IsRecorded(g, p.attempt.job)
    requires t.exclusions == (if retry then g.exclusions else NextExclusions(g, false)) && (p.attempt.reason == ProviderRetry <==> retry)
    ensures
      forall first :: Fills(g, retry, p.attempt,
        [first, Push(p.attempt.job), Save(Recorded(Preparing(t, p), p.attempt).(prepared := None, state := Submitted), {})])
  {
    hide NextExclusions;
  }

  function RetriedItem(g: Generation, retry: bool): string { if retry && g.current.Some? then g.current.value.work.item else "" }

  function SlotRelies(g: Generation): set<Job> { if g.current.Some? then {g.current.value.job} else {} }

  /** The generation in memory when the dispatch starts. */
  function SlotOf(g: Generation, v: View, retry: bool): Generation {
    var h := g.(recoveryError := false);
    if g.current.None? then h
    else if retry then
      (match ClassifyAttempt(v.attempt) case ProviderFailure(_, at) => h.(retryAt := if at.Some? then at else h.retryAt) case _ => h)
    else ItemExcluded(h, g.current.value.work.item, EndBasis(g, v.attempt))
  }

  /** The plan ends with the writes of this one, and reports the same. */
  predicate EndsWith(plan: Plan, made: Plan) {
    plan.report == made.report && |plan.writes| >= |made.writes| && plan.writes[|plan.writes| - |made.writes|..] == made.writes
  }

  lemma PrefixedEndsWith(first: seq<Write>, plan: Plan, made: Plan)
    requires EndsWith(plan, made)
    ensures EndsWith(Prefixed(first, plan), made)
  {
    var whole := Prefixed(first, plan).writes;
    assert whole[|whole| - |made.writes|..] == plan.writes[|plan.writes| - |made.writes|..];
  }

  /** A due dispatch is what the reconcile goes on to. */
  lemma ProceedsToDispatch(g: Generation, v: View, retry: bool)
    requires !v.jit.JitBlocked? && WantsDispatch(g, v, retry)
    ensures EndsWith(Proceed(g.(recoveryError := false), v), SlotDispatch(g, v, retry))
  {
    hide Dispatch, ProviderFailed, Underway, Undecided, ClassifyAttempt, Says, Downstream, Ended, EndsWith, RetryDue, Choose, EndBasis, SlotDispatch;
    if g.current.None? {
      NothingCurrentGoesOn(g, v);
    } else if retry {
      RetryGoesOn(g, v);
    } else {
      EndGoesOn(g, v);
    }
  }

  /** Unless the catalog is blocked, choosing ends with the dispatch. */
  lemma ChoiceDispatches(t: Generation, v: View, reason: Reason, item: string, basis: Option<Basis>, relies: set<Job>)
    requires !v.jit.JitBlocked?
    ensures
      EndsWith(Choose(t, v, reason, item, basis, relies),
               Dispatch(t, v, reason, item, if item == "" then t.exclusions else Without(t.exclusions, item), basis, relies))
  {
    hide Dispatch, Without, EndsWith;
    var made := Dispatch(t, v, reason, item, if item == "" then t.exclusions else Without(t.exclusions, item), basis, relies);
    assert EndsWith(made, made) by { EndsWithItself(made); }
    PrefixedEndsWith([Save(t, relies)], made, made);
  }

  lemma EndsWithItself(plan: Plan)
    ensures EndsWith(plan, plan)
  {}

  lemma NothingCurrentGoesOn(g: Generation, v: View)
    requires !v.jit.JitBlocked? && g.current.None?
    ensures EndsWith(Proceed(g.(recoveryError := false), v), SlotDispatch(g, v, false))
  {
    hide Dispatch, Choose, EndsWith, ClassifyAttempt;
    ChoiceDispatches(g.(recoveryError := false), v, Initial, "", None, {});
  }

  lemma RetryGoesOn(g: Generation, v: View)
    requires !v.jit.JitBlocked? && g.current.Some? && RetryDue(g, v)
    ensures EndsWith(Proceed(g.(recoveryError := false), v), SlotDispatch(g, v, true))
  {
    var c, t := g.current.value, SlotOf(g, v, true);
    hide *;
    RetryChooses(g, v);
    ChoiceDispatches(t, v, ProviderRetry, c.work.item, None, {c.job});
    RetrySlot(g, v);
  }

  lemma RetryChooses(g: Generation, v: View)
    requires g.current.Some? && RetryDue(g, v)
    ensures
      Proceed(g.(recoveryError := false), v) ==
        Choose(SlotOf(g, v, true), v, ProviderRetry, g.current.value.work.item, None, {g.current.value.job})
  {
    EvidenceIsPartitioned(v.attempt);
    hide Choose, ProviderFailed, Underway, Undecided, ClassifyAttempt, Says, Downstream, Ended, EndBasis;
    var at :| ProviderFailed(v.attempt, true, at);
    ProviderDecides(g, v, true, at);
    hide RetryDue;
  }

  lemma RetrySlot(g: Generation, v: View)
    requires g.current.Some? && RetryDue(g, v)
    ensures
      var c, t := g.current.value, SlotOf(g, v, true);
      var exclusions := if c.work.item == "" then t.exclusions else Without(t.exclusions, c.work.item);
      SlotDispatch(g, v, true) == Dispatch(t, v, ProviderRetry, c.work.item, exclusions, None, {c.job})
  {
    var at :| ProviderFailed(v.attempt, true, at);
    NoEndBasis(g, v.attempt, true, at);
    hide Dispatch, EndBasis, ClassifyAttempt, ProviderFailed, Without;
    assert SlotOf(g, v, true).exclusions == g.exclusions;
  }

  lemma NoEndBasis(g: Generation, a: AttemptReads, retryable: bool, at: Option<nat>)
    requires ProviderFailed(a, retryable, at)
    ensures EndBasis(g, a).None?
  {}

  lemma EndGoesOn(g: Generation, v: View)
    requires !v.jit.JitBlocked? && g.current.Some? && Ended(v.attempt)
    ensures EndsWith(Proceed(g.(recoveryError := false), v), SlotDispatch(g, v, false))
  {
    var c, t, basis := g.current.value, SlotOf(g, v, false), EndBasis(g, v.attempt);
    hide *;
    EndIsBasis(g, v.attempt);
    EndChooses(g, v);
    ChoiceDispatches(t, v, Initial, "", basis, {c.job});
    PrefixedEndsWith([Save(t, {c.job})], Choose(t, v, Initial, "", basis, {c.job}), SlotDispatch(g, v, false));
  }

  lemma EndChooses(g: Generation, v: View)
    requires g.current.Some? && ClassifyAttempt(v.attempt) == Terminal(EndBasis(g, v.attempt))
    ensures
      var c, t, basis := g.current.value, SlotOf(g, v, false), EndBasis(g, v.attempt);
      && Proceed(g.(recoveryError := false), v) == Prefixed([Save(t, {c.job})], Choose(t, v, Initial, "", basis, {c.job}))
      && SlotDispatch(g, v, false) == Dispatch(t, v, Initial, "", t.exclusions, basis, {c.job})
  {
    hide Dispatch, Choose, ClassifyAttempt, EndBasis, WithItem;
  }

  lemma EndIsBasis(g: Generation, a: AttemptReads)
    requires g.current.Some? && Ended(a)
    ensures ClassifyAttempt(a) == Terminal(EndBasis(g, a))
  {}

  // ---- job files that were never recorded ----

  lemma {:induction false} StraysAreClaims(g: Generation, sightings: seq<Sighting>)
    ensures forall a :: a in Strays(g, sightings) <==>
      exists i :: 0 <= i < |sightings| && IsStray(g, sightings[i]) && Claimed(sightings[i]) == a
    decreases |sightings|
  {
    if sightings != [] {
      var s, rest := sightings[0], sightings[1..];
      StraysAreClaims(g, rest);
      assert sightings == [s] + rest;
      forall a ensures a in Strays(g, sightings) <==> exists i :: 0 <= i < |sightings| && IsStray(g, sightings[i]) && Claimed(sightings[i]) == a {
        if a in Strays(g, rest) {
          var i :| 0 <= i < |rest| && IsStray(g, rest[i]) && Claimed(rest[i]) == a;
          assert sightings[i + 1] == rest[i];
        }
        if i :| 0 < i < |sightings| && IsStray(g, sightings[i]) && Claimed(sightings[i]) == a {
          assert rest[i - 1] == sightings[i];
        }
      }
    }
  }

  /** Nothing goes on but the note that the job files are in doubt. */
  predicate Doubts(g: Generation, plan: Plan, why: Cause) {
    plan == Plan([Save(g.(state := Blocked, recoveryError := true), {})], Report(IsBlocked, why))
  }

  /**
   A job file of the generation that is on no record decides before anything else: if it cannot be read, if another
   claims something else, or if it is not the next attempt, refill blocks; otherwise it is recorded as current.
   */
  lemma UnrecordedJobDecides(g: Generation, v: View, k: int)
    requires v.policy.enabled && v.policy.desired == 1 && v.healthy && g.prepared.None?
    requires 0 <= k < |v.sightings| && (v.sightings[k].claim == BadClaim(g.id) || IsStray(g, v.sightings[k]))
    ensures
      var plan, claims := Reconcile(Some(g), v), v.sightings;
      if exists i :: 0 <= i < |claims| && claims[i].claim == BadClaim(g.id) then Doubts(g, plan, InvalidAttemptEvidence)
      else if exists i :: 0 <= i < |claims| && IsStray(g, claims[i]) && Claimed(claims[i]) != Claimed(claims[k]) then Doubts(g, plan, AmbiguousRecovery)
      else if claims[k].claim.ordinal != |g.sequence| + 1 then Doubts(g, plan, OrdinalConflict)
      else plan.writes != [] && plan.writes[0] == Save(Recorded(g, Claimed(claims[k])).(state := RefillDispatch.Recovered), {})
  {
    hide AfterRecovery;
    assert Reconcile(Some(g), v) == AfterRecovery(g, v) by { assert [] + AfterRecovery(g, v).writes == AfterRecovery(g, v).writes; }
    UnrecordedPhase(g, v, k);
    hide Reconcile, RecoverUnrecorded, IsStray, Recorded;
    AfterRecoveryStarts(g, v);
  }

  lemma AfterRecoveryStarts(g: Generation, v: View)
    ensures
      match RecoverUnrecorded(g, v.sightings)
      case Done(writes, report) => AfterRecovery(g, v) == Plan(writes, report)
      case Continue(writes, _) => writes <= AfterRecovery(g, v).writes
  {
    hide RecoverUnrecorded, Advance, Occupancy;
  }

  lemma UnrecordedPhase(g: Generation, v: View, k: int)
    requires 0 <= k < |v.sightings| && (v.sightings[k].claim == BadClaim(g.id) || IsStray(g, v.sightings[k]))
    ensures
      var phase, claims := RecoverUnrecorded(g, v.sightings), v.sightings;
      var troubled := [Save(g.(state := Blocked, recoveryError := true), {})];
      if exists i :: 0 <= i < |claims| && claims[i].claim == BadClaim(g.id) then phase == Done(troubled, Report(IsBlocked, InvalidAttemptEvidence))
      else if exists i :: 0 <= i < |claims| && IsStray(g, claims[i]) && Claimed(claims[i]) != Claimed(claims[k])
      then phase == Done(troubled, Report(IsBlocked, AmbiguousRecovery))
      else if claims[k].claim.ordinal != |g.sequence| + 1 then phase == Done(troubled, Report(IsBlocked, OrdinalConflict))
      else phase.Continue? && phase.writes == [Save(Recorded(g, Claimed(claims[k])).(state := RefillDispatch.Recovered), {})]
  {
    StraysAreClaims(g, v.sightings);
    var claims, strays := v.sightings, Strays(g, v.sightings);
    if forall i :: 0 <= i < |claims| ==> claims[i].claim != BadClaim(g.id) {
      assert Claimed(claims[k]) in strays;
      assert strays[0] in strays;
      if i :| 0 <= i < |claims| && IsStray(g, claims[i]) && Claimed(claims[i]) != Claimed(claims[k]) {
        assert Claimed(claims[i]) in strays;
        hide Strays, Recorded;
      } else {
        forall i | 0 <= i < |strays| ensures strays[i] == Claimed(claims[k]) {
          assert strays[i] in strays;
        }
        hide Strays, Recorded;
      }
    }
  }
}

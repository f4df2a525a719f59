/** Every write a reconcile decides on is an allowed change when its turn comes, whatever the host did meanwhile. */
module RefillRuns {
  import opened Outcomes
  import opened Text
  import opened PacketSelection
  import opened RefillDispatch
  import opened DecisionBasis
  import opened RefillPlan

  // ---- what a reconcile may assume of what it reads ----

  /** A job file that claims to be an attempt of this generation is a feed job, and claims what its id hashes. */
  ghost predicate Honest(id: string, feed: set<Job>, sightings: seq<Sighting>) {
    forall i :: 0 <= i < |sightings| && sightings[i].claim.AttemptClaim? && sightings[i].claim.generation == id ==>
      var c := sightings[i].claim;
      sightings[i].job in feed && sightings[i].job == RefillJob(id, c.ordinal, c.retry, c.work)
  }

  /** The builder sees only catalog packets, and finds this generation's jobs queued or fed only when they are in the feed. */
  ghost predicate Faithful(id: string, feed: set<Job>, r: BuildReads, registry: Registry) {
    && (forall p :: p in r.catalog ==> Offered(registry, p.work))
    && (forall job :: job in r.pending + r.feed && job.RefillJob? && job.generation == id ==> job in feed)
  }

  ghost predicate Truthful(w: World, v: View, registry: Registry) {
    && Honest(w.generation.id, w.feed, v.sightings)
    && Faithful(w.generation.id, w.feed, v.dry, registry)
    && Faithful(w.generation.id, w.feed, v.submit, registry)
  }

  // ---- writes still to be made ----

  /** The relied-on archives exist. */
  function Grown(w: World, relies: set<Job>): World { w.(archived := w.archived + relies, queued := w.queued - relies) }

  function Next(w: World, write: Write): World { Written(Grown(w, Relies(write)), write) }

  function Outcome(w: World, todo: seq<Write>): World
    decreases |todo|
  {
    if todo == [] then w else Outcome(Next(w, todo[0]), todo[1..])
  }

  /** Every write still to be made is allowed when its turn comes. */
  ghost predicate Due(w: World, todo: seq<Write>, registry: Registry)
    decreases |todo|
  {
    todo == [] || (Allowed(Grown(w, Relies(todo[0])), todo[0], registry) && Due(Next(w, todo[0]), todo[1..], registry))
  }

  lemma GrownIsHostStep(w: World, relies: set<Job>)
    requires w.queued !! w.archived
    ensures HostStep(w, Grown(w, relies))
  {}

  lemma NextKeepsSound(w: World, write: Write, registry: Registry)
    requires Sound(w, registry) && Allowed(Grown(w, Relies(write)), write, registry)
    ensures Sound(Next(w, write), registry)
  {
    assert w.queued !! w.archived by { assert Accounted(w); }
    GrownIsHostStep(w, Relies(write));
    HostKeepsSound(w, Grown(w, Relies(write)), registry);
    WritingKeepsSound(Grown(w, Relies(write)), write, registry);
  }

  lemma {:induction false} DueKeepsSound(w: World, todo: seq<Write>, registry: Registry)
    requires Sound(w, registry) && Due(w, todo, registry)
    ensures Sound(Outcome(w, todo), registry)
    decreases |todo|
  {
    hide Sound, Allowed;
    if todo != [] {
      NextKeepsSound(w, todo[0], registry);
      DueKeepsSound(Next(w, todo[0]), todo[1..], registry);
    }
  }

  lemma {:induction false} DueConcat(w: World, a: seq<Write>, b: seq<Write>, registry: Registry)
    requires Due(w, a, registry) && Due(Outcome(w, a), b, registry)
    ensures Due(w, a + b, registry) && Outcome(w, a + b) == Outcome(Outcome(w, a), b)
    decreases |a|
  {
    hide Allowed, Next;
    if a == [] {
      assert a + b == b;
    } else {
      assert (a + b)[1..] == a[1..] + b && (a + b)[0] == a[0];
      DueConcat(Next(w, a[0]), a[1..], b, registry);
    }
  }

  predicate Later(a: World, b: World) { b.generation == a.generation && b.feed == a.feed && a.archived <= b.archived }

  lemma AllowedLater(a: World, b: World, write: Write, registry: Registry)
    requires Later(a, b) && Allowed(a, write, registry)
    ensures Allowed(b, write, registry)
  {}

  lemma {:induction false} DueLater(a: World, b: World, todo: seq<Write>, registry: Registry)
    requires Later(a, b) && Due(a, todo, registry)
    ensures Due(b, todo, registry)
    decreases |todo|
  {
    hide Allowed;
    if todo != [] {
      AllowedLater(Grown(a, Relies(todo[0])), Grown(b, Relies(todo[0])), todo[0], registry);
      assert Later(Next(a, todo[0]), Next(b, todo[0]));
      DueLater(Next(a, todo[0]), Next(b, todo[0]), todo[1..], registry);
    }
  }

  lemma DueOne(w: World, write: Write, registry: Registry)
    requires Allowed(Grown(w, Relies(write)), write, registry)
    ensures Due(w, [write], registry) && Outcome(w, [write]) == Next(w, write)
  {
    hide Allowed;
    assert [write][1..] == [];
    assert Due(Next(w, write), [], registry);
    assert Outcome(Next(w, write), []) == Next(w, write);
  }

  lemma MarkIsDue(w: World, h: Generation, relies: set<Job>, registry: Registry)
    requires IsMark(w.generation, h)
    ensures Due(w, [Save(h, relies)], registry) && Outcome(w, [Save(h, relies)]) == Next(w, Save(h, relies))
  {
    DueOne(w, Save(h, relies), registry);
  }

  // ---- each phase makes only allowed writes ----

  lemma RecoverPreparedIsDue(w: World, check: Evidence, sightings: seq<Sighting>, registry: Registry)
    requires Sound(w, registry) && Honest(w.generation.id, w.feed, sightings)
    ensures
      var phase := RecoverPrepared(w.generation, check, sightings);
      && Due(w, phase.writes, registry)
      && (phase.Continue? ==>
        && Outcome(w, phase.writes) == w.(generation := phase.generation)
        && (phase.generation.prepared.Some? ==> forall i :: 0 <= i < |sightings| ==> sightings[i].job != phase.generation.prepared.value.attempt.job))
  {
    hide Sound, BasisError, Recorded, Due, Outcome;
    var g, phase := w.generation, RecoverPrepared(w.generation, check, sightings);
    if g.prepared.Some? {
      var p := g.prepared.value;
      if phase.Done? {
        MarkIsDue(w, Block(g), {}, registry);
      } else if HasMatch(g, sightings, p) {
        assert p.attempt.job in w.feed;
        assert IsRecording(w, phase.generation);
        DueOne(w, Save(phase.generation, {}), registry);
      } else {
        NothingDue(w, registry);
      }
    } else {
      NothingDue(w, registry);
    }
  }

  lemma NothingDue(w: World, registry: Registry)
    ensures Due(w, [], registry) && Outcome(w, []) == w
  {}

  /** Once a prepared dispatch is recovered, no job file of the generation is unrecorded. */
  lemma {:induction false} NothingIsStray(w: World, sightings: seq<Sighting>, registry: Registry)
    requires Sound(w, registry) && Honest(w.generation.id, w.feed, sightings)
    requires w.generation.prepared.Some? ==> forall i :: 0 <= i < |sightings| ==> sightings[i].job != w.generation.prepared.value.attempt.job
    ensures Strays(w.generation, sightings) == []
    decreases |sightings|
  {
    if sightings != [] {
      var g, s := w.generation, sightings[0];
      assert Honest(g.id, w.feed, sightings[1..]);
      NothingIsStray(w, sightings[1..], registry);
      if s.claim.AttemptClaim? && s.claim.generation == g.id {
        assert s.job in w.feed && OfGeneration(g, s.job);
      }
    }
  }

  lemma RecoverUnrecordedIsDue(w: World, sightings: seq<Sighting>, registry: Registry)
    requires Sound(w, registry) && Honest(w.generation.id, w.feed, sightings)
    requires w.generation.prepared.Some? ==> forall i :: 0 <= i < |sightings| ==> sightings[i].job != w.generation.prepared.value.attempt.job
    ensures
      var phase := RecoverUnrecorded(w.generation, sightings);
      && Due(w, phase.writes, registry)
      && (phase.Continue? ==>
        && Outcome(w, phase.writes) == w.(generation := phase.generation)
        && IsMark(w.generation, phase.generation))
  {
    NothingIsStray(w, sightings, registry);
    hide Sound, Due, Outcome, Strays;
    var g, phase := w.generation, RecoverUnrecorded(w.generation, sightings);
    NothingDue(w, registry);
    if phase.writes != [] {
      var h := if phase.Done? then Block(g).(recoveryError := true) else g.(recoveryError := false);
      MarkIsDue(w, h, {}, registry);
    }
  }

  /** What the builder constructs or queues is a catalog packet that was not excluded, under the id it was asked for. */
  lemma BuiltIsOffered(g: Generation, ordinal: nat, retry: nat, exclusions: seq<string>, item: string, submit: bool, r: BuildReads,
                       feed: set<Job>, registry: Registry)
    requires Faithful(g.id, feed, r, registry)
    ensures
      var b := Build(g, ordinal, retry, exclusions, item, submit, r);
      && (!b.Refused? ==>
        && Offered(registry, b.work) && b.work.item !in exclusions && b.job == JobFor(g, ordinal, retry, b.work)
        && (item != "" ==> b.work.item == item))
      && (b.AlreadyQueued? || (b.InFeed? && !b.isNew) ==> b.job in feed)
  {
    SelectionIsLeast(r.catalog, exclusions);
    hide Select, Excluded;
    var b := Build(g, ordinal, retry, exclusions, item, submit, r);
    if !b.Refused? {
      var packet := Select(r.catalog, exclusions).value.value;
      assert Offered(registry, packet.work);
      if packet.work.item in exclusions {
        NamedIsExcluded(packet, exclusions);
      }
    }
  }

  lemma NamedIsExcluded(packet: Packet, exclusions: seq<string>)
    requires packet.work.item != "" && Strip(packet.work.item) == packet.work.item && packet.work.item in exclusions
    ensures Excluded(packet, exclusions)
  {
    var i :| 0 <= i < |exclusions| && exclusions[i] == packet.work.item;
    assert Strip(exclusions[i]) == packet.work.item;
  }

  /** Sending a prepared dispatch queues exactly the prepared job, and only then records it. */
  lemma SendingIsDue(w: World, built: Built, registry: Registry)
    requires w.generation.prepared.Some?
    requires QueuedBuild(built) ==> built.job == w.generation.prepared.value.attempt.job && built.work == w.generation.prepared.value.attempt.work
    requires built.AlreadyQueued? || (built.InFeed? && !built.isNew) ==> built.job in w.feed
    ensures
      var g, p := w.generation, w.generation.prepared.value;
      var sent := SubmitPrepared(g, p, built);
      && sent.Continue? && sent.generation == g
      && Due(w, sent.writes, registry)
      && Outcome(w, sent.writes).generation == g
      && (QueuedBuild(built) ==>
        Due(Outcome(w, sent.writes), [Save(Recorded(g, p.attempt).(prepared := None, state := Submitted), {})], registry))
  {
    hide Due, Outcome, Recorded;
    var g, p := w.generation, w.generation.prepared.value;
    var sent := SubmitPrepared(g, p, built);
    if built.InFeed? && built.isNew {
      DueOne(w, Push(built.job), registry);
      assert sent.writes == [Push(built.job)];
    } else {
      NothingDue(w, registry);
      assert sent.writes == [];
    }
    if QueuedBuild(built) {
      var after := Outcome(w, sent.writes);
      assert p.attempt.job in after.feed;
      var h := Recorded(g, p.attempt).(prepared := None, state := Submitted);
      assert IsRecording(after, h) && Grown(after, {}) == after;
      DueOne(after, Save(h, {}), registry);
    }
  }

  lemma ReplayIsDue(w: World, r: BuildReads, registry: Registry)
    requires Sound(w, registry) && w.generation.prepared.Some? && Faithful(w.generation.id, w.feed, r, registry)
    ensures Due(w, Replay(w.generation, w.generation.prepared.value, r).writes, registry)
  {
    var g, p := w.generation, w.generation.prepared.value;
    var a := p.attempt;
    assert NextAttempt(g, a) && Offered(registry, a.work);
    hide Sound, Due, Outcome, Build, Recorded, Faithful;
    var built := Build(g, a.ordinal, a.retry, p.exclusions, a.work.item, true, r);
    BuiltIsOffered(g, a.ordinal, a.retry, p.exclusions, a.work.item, true, r, w.feed, registry);
    SendingIsDue(w, built, registry);
    var sent := SubmitPrepared(g, p, built);
    if QueuedBuild(built) && g.state != Blocked {
      assert Attempt(a.ordinal, a.retry, a.reason, built.work, built.job) == a;
      DueConcat(w, sent.writes, [Save(RecordBuilt(g, a.ordinal, a.retry, a.reason, built), {})], registry);
    }
  }

  /** Memory differs from the file by bookkeeping only, and a dispatch of this kind may be prepared. */
  predicate MayDispatch(w: World, g: Generation, reason: Reason, item: string, exclusions: seq<string>, relies: set<Job>) {
    && IsMark(w.generation, g) && g.prepared.None?
    && match reason
       case Initial => g.current.None? && item == "" && exclusions == g.exclusions
       case ProviderRetry => item != "" && g.current.Some? && item == g.current.value.work.item && relies == {g.current.value.job} && !g.retryConsumed
  }

  lemma ConclusionIsDue(w: World, g: Generation, ordinal: nat, retry: nat, reason: Reason, built: Built, registry: Registry)
    requires IsMark(w.generation, g) && !QueuedBuild(built)
    ensures Due(w, Conclude(g, ordinal, retry, reason, built).writes, registry)
  {
    hide Due;
    NothingDue(w, registry);
    MarkIsDue(w, Block(g), {}, registry);
    MarkIsDue(w, g.(state := Unfilled), {}, registry);
  }

  /** The job id of the next attempt is not in use yet. */
  lemma NextJobIsUnused(w: World, g: Generation, retry: nat, work: Work, registry: Registry)
    requires Sound(w, registry) && IsMark(w.generation, g) && g.prepared.None?
    ensures JobFor(g, |g.sequence| + 1, retry, work) !in w.feed
  {
    var job := JobFor(g, |g.sequence| + 1, retry, work);
    assert OfGeneration(w.generation, job);
  }

  lemma DispatchIsDue(w: World, g: Generation, v: View, reason: Reason, item: string, exclusions: seq<string>,
                      basis: Option<Basis>, relies: set<Job>, registry: Registry)
    requires Sound(w, registry) && Truthful(w, v, registry) && MayDispatch(w, g, reason, item, exclusions, relies)
    ensures Due(w, Dispatch(g, v, reason, item, exclusions, basis, relies).writes, registry)
  {
    var ordinal: nat, retry: nat := |g.sequence| + 1, if reason == ProviderRetry then 1 else 0;
    assert Faithful(g.id, w.feed, v.dry, registry) && Faithful(g.id, w.feed, v.submit, registry);
    hide Sound, Truthful, Faithful, Due, Build, Outcome, Conclude, DispatchPrepared;
    var dry := Build(g, ordinal, retry, exclusions, item, false, v.dry);
    BuiltIsOffered(g, ordinal, retry, exclusions, item, false, v.dry, w.feed, registry);
    if !dry.Refused? {
      NextJobIsUnused(w, g, retry, dry.work, registry);
    }
    DryRunNeverSubmits(g, ordinal, retry, exclusions, item, v.dry);
    if !dry.Constructed? {
      ConclusionIsDue(w, g, ordinal, retry, reason, dry, registry);
    } else {
      ConstructedIsPrepared(g, dry, reason, ordinal, retry, item, exclusions, basis, registry);
      hide PreparedWith, IsPreparedFor, MayDispatch;
      var p := PreparedWith(g, reason, ordinal, retry, exclusions, dry, basis);
      PreparedDispatchIsDue(w, g, v, p, reason, item, exclusions, relies, registry);
    }
  }

  lemma ConstructedIsPrepared(g: Generation, dry: Built, reason: Reason, ordinal: nat, retry: nat, item: string, exclusions: seq<string>,
                              basis: Option<Basis>, registry: Registry)
    requires dry.Constructed? && dry.job == JobFor(g, ordinal, retry, dry.work) && ordinal == |g.sequence| + 1
    requires retry == (if reason == ProviderRetry then 1 else 0)
    requires Offered(registry, dry.work) && dry.work.item !in exclusions && (item != "" ==> dry.work.item == item)
    ensures IsPreparedFor(g, PreparedWith(g, reason, ordinal, retry, exclusions, dry, basis), reason, item, exclusions, registry)
  {
    hide Bind, Offered;
  }

  /** The prepared attempt is the next one, at an item from the catalog that is not excluded. */
  predicate IsPreparedFor(g: Generation, p: Prepared, reason: Reason, item: string, exclusions: seq<string>, registry: Registry) {
    && p.generation == g.id && p.exclusions == exclusions && NextAttempt(g, p.attempt) && p.attempt.reason == reason
    && p.attempt.retry == (if reason == ProviderRetry then 1 else 0)
    && Offered(registry, p.attempt.work) && p.attempt.work.item !in exclusions && (item != "" ==> p.attempt.work.item == item)
  }

  lemma PreparedDispatchIsDue(w: World, g: Generation, v: View, p: Prepared, reason: Reason, item: string, exclusions: seq<string>,
                              relies: set<Job>, registry: Registry)
    requires MayDispatch(w, g, reason, item, exclusions, relies) && Faithful(g.id, w.feed, v.submit, registry)
    requires IsPreparedFor(g, p, reason, item, exclusions, registry)
    ensures Due(w, DispatchPrepared(g, v, p, relies).writes, registry)
  {
    hide Due, Outcome, Build, Faithful, Offered, Conclude, SubmitPrepared, BasisError;
    var a := p.attempt;
    if BasisError(v.commitCheck, p).Some? {
      BlockedDispatchIsDue(w, g, a.ordinal, a.retry, a.reason, registry);
    } else {
      var h := Preparing(g, p);
      PreparingIsDue(w, g, h, reason, item, exclusions, relies, registry);
      SubmittingIsDue(Next(w, Save(h, relies)), h, p, v, registry);
      DueConcat(w, [Save(h, relies)], SubmittingWrites(h, p, v), registry);
      var built := Build(h, a.ordinal, a.retry, p.exclusions, a.work.item, true, v.submit);
      var sent := SubmitPrepared(h, p, built);
      assert [Save(h, relies)] + sent.writes + Conclude(sent.generation, a.ordinal, a.retry, a.reason, built).writes
          == [Save(h, relies)] + (sent.writes + Conclude(sent.generation, a.ordinal, a.retry, a.reason, built).writes);
    }
  }

  lemma DryRunNeverSubmits(g: Generation, ordinal: nat, retry: nat, exclusions: seq<string>, item: string, r: BuildReads)
    ensures !Build(g, ordinal, retry, exclusions, item, false, r).InFeed?
  {}

  lemma BlockedDispatchIsDue(w: World, g: Generation, ordinal: nat, retry: nat, reason: Reason, registry: Registry)
    requires IsMark(w.generation, g)
    ensures Due(w, [Save(Block(g), {})] + Conclude(Block(g), ordinal, retry, reason, Refused(IsBlocked)).writes, registry)
  {
    MarkIsDue(w, Block(g), {}, registry);
    ConclusionIsDue(Next(w, Save(Block(g), {})), Block(g), ordinal, retry, reason, Refused(IsBlocked), registry);
    DueConcat(w, [Save(Block(g), {})], Conclude(Block(g), ordinal, retry, reason, Refused(IsBlocked)).writes, registry);
  }

  lemma PreparingIsDue(w: World, g: Generation, h: Generation, reason: Reason, item: string, exclusions: seq<string>, relies: set<Job>, registry: Registry)
    requires MayDispatch(w, g, reason, item, exclusions, relies)
    requires h.prepared.Some? && IsPreparedFor(g, h.prepared.value, reason, item, exclusions, registry)
    requires IsMark(g.(prepared := h.prepared, retryConsumed := g.retryConsumed || reason == ProviderRetry), h)
    ensures Due(w, [Save(h, relies)], registry) && Outcome(w, [Save(h, relies)]) == Next(w, Save(h, relies))
  {
    var grown := Grown(w, relies);
    match reason
    case Initial =>
      assert IsPreparation(grown, h, registry);
      DueOne(w, Save(h, relies), registry);
    case ProviderRetry =>
      assert g.current.value.job in grown.archived;
      assert IsRetry(grown, h, registry);
      DueOne(w, Save(h, relies), registry);
  }

  /** What a dispatch writes after its preparation is saved. */
  function SubmittingWrites(h: Generation, p: Prepared, v: View): seq<Write> {
    var a := p.attempt;
    var built := Build(h, a.ordinal, a.retry, p.exclusions, a.work.item, true, v.submit);
    var sent := SubmitPrepared(h, p, built);
    sent.writes + Conclude(sent.generation, a.ordinal, a.retry, a.reason, built).writes
  }

  lemma SubmittingIsDue(w: World, h: Generation, p: Prepared, v: View, registry: Registry)
    requires w.generation == h && h.prepared == Some(p) && NextAttempt(h, p.attempt) && Offered(registry, p.attempt.work)
    requires Faithful(h.id, w.feed, v.submit, registry)
    ensures Due(w, SubmittingWrites(h, p, v), registry)
  {
    hide Due, Build, Outcome, Recorded, Faithful;
    var a := p.attempt;
    var built := Build(h, a.ordinal, a.retry, p.exclusions, a.work.item, true, v.submit);
    BuiltIsOffered(h, a.ordinal, a.retry, p.exclusions, a.work.item, true, v.submit, w.feed, registry);
    SendingIsDue(w, built, registry);
    var sent := SubmitPrepared(h, p, built);
    var after := Outcome(w, sent.writes);
    if QueuedBuild(built) {
      assert Attempt(a.ordinal, a.retry, a.reason, built.work, built.job) == a;
      NothingDue(after, registry);
    } else {
      ConclusionIsDue(after, h, a.ordinal, a.retry, a.reason, built, registry);
    }
    DueConcat(w, sent.writes, Conclude(sent.generation, a.ordinal, a.retry, a.reason, built).writes, registry);
  }

  lemma ChooseIsDue(w: World, g: Generation, v: View, reason: Reason, item: string, basis: Option<Basis>, relies: set<Job>, registry: Registry)
    requires Sound(w, registry) && Truthful(w, v, registry)
    requires MayDispatch(w, g, reason, item, if item == "" then g.exclusions else Without(g.exclusions, item), relies)
    ensures Due(w, Choose(g, v, reason, item, basis, relies).writes, registry)
  {
    var exclusions := if item == "" then g.exclusions else Without(g.exclusions, item);
    match v.jit
    case JitBlocked =>
      hide Sound, Truthful;
      MarkIsDue(w, Block(g), relies, registry);
    case JitQuiet =>
      hide Sound, Truthful, Dispatch;
      DispatchIsDue(w, g, v, reason, item, exclusions, basis, relies, registry);
    case JitNoted =>
      hide Dispatch;
      var next := Next(w, Save(g, relies));
      MarkIsDue(w, g, relies, registry);
      assert Sound(next, registry) by { hide Sound, Truthful; NextKeepsSound(w, Save(g, relies), registry); }
      hide Sound;
      DispatchIsDue(next, g, v, reason, item, exclusions, basis, relies, registry);
      hide Due, Outcome;
      DueConcat(w, [Save(g, relies)], Dispatch(g, v, reason, item, exclusions, basis, relies).writes, registry);
  }

  lemma ProceedIsDue(w: World, v: View, registry: Registry)
    requires Sound(w, registry) && Truthful(w, v, registry) && w.generation.prepared.None?
    ensures Due(w, Proceed(w.generation, v).writes, registry)
  {
    var g := w.generation;
    hide Choose, Truthful, Due, Outcome;
    if g.current.None? {
      ChooseIsDue(w, g, v, Initial, "", None, {}, registry);
    } else {
      var c := g.current.value;
      assert Offered(registry, c.work) by { assert c == g.sequence[|g.sequence| - 1]; }
      var category := ClassifyAttempt(v.attempt);
      hide Sound, ClassifyAttempt;
      match category
      case InFlight => MarkIsDue(w, g.(state := Occupied), {}, registry);
      case Unclear => MarkIsDue(w, Block(g), {}, registry);
      case ProviderFailure(retryable, at) =>
        var h := g.(retryAt := if at.Some? then at else g.retryAt);
        MarkIsDue(w, h.(state := Backpressure), {}, registry);
        if retryable && h.retryAt.Some? && v.now >= h.retryAt.value && !g.retryConsumed {
          ChooseIsDue(w, h, v, ProviderRetry, c.work.item, None, {c.job}, registry);
        }
      case Terminal(basis) => ExclusionIsDue(w, v, basis, registry);
    }
  }

  lemma ExclusionIsDue(w: World, v: View, basis: Option<Basis>, registry: Registry)
    requires Sound(w, registry) && Truthful(w, v, registry) && w.generation.prepared.None?
    requires w.generation.current.Some? && Offered(registry, w.generation.current.value.work)
    ensures
      var c := w.generation.current.value;
      var h := ItemExcluded(w.generation, c.work.item, basis);
      Due(w, [Save(h, {c.job})] + Choose(h, v, Initial, "", basis, {c.job}).writes, registry)
  {
    hide Choose, Due, Outcome, Sound;
    var c := w.generation.current.value;
    var h := ItemExcluded(w.generation, c.work.item, basis);
    var write := Save(h, {c.job});
    assert IsExclusion(Grown(w, {c.job}), h);
    DueOne(w, write, registry);
    NextKeepsSound(w, write, registry);
    ChooseIsDue(Next(w, write), h, v, Initial, "", basis, {c.job}, registry);
    DueConcat(w, [write], Choose(h, v, Initial, "", basis, {c.job}).writes, registry);
  }

  lemma AdvanceIsDue(w: World, v: View, registry: Registry)
    requires Sound(w, registry) && Truthful(w, v, registry)
    ensures Due(w, Advance(w.generation, v).writes, registry)
  {
    hide Sound, RecoverPrepared, Replay, Proceed, Due, Outcome, Faithful, Honest;
    RecoverPreparedIsDue(w, v.replayCheck, v.sightings, registry);
    var phase := RecoverPrepared(w.generation, v.replayCheck, v.sightings);
    if phase.Continue? {
      var next := w.(generation := phase.generation);
      DueKeepsSound(w, phase.writes, registry);
      assert next.generation.id == w.generation.id by { PhaseKeepsId(w.generation, v.replayCheck, v.sightings); }
      if phase.generation.prepared.Some? {
        ReplayIsDue(next, v.submit, registry);
        DueConcat(w, phase.writes, Replay(phase.generation, phase.generation.prepared.value, v.submit).writes, registry);
      } else {
        ProceedIsDue(next, v, registry);
        DueConcat(w, phase.writes, Proceed(phase.generation, v).writes, registry);
      }
    }
  }

  lemma PhaseKeepsId(g: Generation, check: Evidence, sightings: seq<Sighting>)
    ensures
      var phase := RecoverPrepared(g, check, sightings);
      phase.Continue? ==> phase.generation.id == g.id
  {}

  lemma AfterRecoveryIsDue(w: World, v: View, registry: Registry)
    requires Sound(w, registry) && Truthful(w, v, registry)
    requires w.generation.prepared.Some? ==> forall i :: 0 <= i < |v.sightings| ==> v.sightings[i].job != w.generation.prepared.value.attempt.job
    ensures Due(w, AfterRecovery(w.generation, v).writes, registry)
  {
    hide Sound, RecoverUnrecorded, Advance, Due, Outcome, Faithful, Honest, Occupancy;
    RecoverUnrecordedIsDue(w, v.sightings, registry);
    var phase := RecoverUnrecorded(w.generation, v.sightings);
    if phase.Continue? && Occupancy(v).None? {
      var next := w.(generation := phase.generation);
      DueKeepsSound(w, phase.writes, registry);
      AdvanceIsDue(next, v, registry);
      DueConcat(w, phase.writes, Advance(phase.generation, v).writes, registry);
    }
  }

  /** Everything a reconcile writes, at whatever point it is interrupted, is an allowed change. */
  lemma ReconcileIsDue(w: World, v: View, registry: Registry)
    requires Sound(w, registry) && Truthful(w, v, registry)
    ensures Due(w, Reconcile(Some(w.generation), v).writes, registry)
  {
    hide Sound, RecoverPrepared, AfterRecovery, Due, Outcome, Faithful, Honest;
    NothingDue(w, registry);
    MarkIsDue(w, w.generation.(state := Paused), {}, registry);
    RecoverPreparedIsDue(w, v.recoverCheck, v.sightings, registry);
    var phase := RecoverPrepared(w.generation, v.recoverCheck, v.sightings);
    if phase.Continue? {
      var next := w.(generation := phase.generation);
      DueKeepsSound(w, phase.writes, registry);
      PhaseKeepsId(w.generation, v.recoverCheck, v.sightings);
      AfterRecoveryIsDue(next, v, registry);
      DueConcat(w, phase.writes, AfterRecovery(phase.generation, v).writes, registry);
    }
  }
}

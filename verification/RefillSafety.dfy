/** Refill over whole runs: reconciles that may die between any two writes, among host moves and founder commands. */
module RefillSafety {
  import opened Outcomes
  import opened Text
  import opened PacketSelection
  import opened RefillDispatch
  import opened DecisionBasis
  import opened RefillPlan
  import opened RefillRuns
  import LifecycleEvidence
  import LifecycleReducer
  import LifecycleRecovery
  import LifecycleJournal
  import CanonicalClassification

  /** The files, and the writes the running reconcile has still to make; none while no reconcile runs. */
  datatype System = System(world: World, todo: seq<Write>)

  datatype Event =
    | HostMoves(after: World)
    | FounderSets(state: State)
    | Starts(view: View)
    | Writes
    | Dies

  /**
   What may happen next. The archives a write relies on need only exist when it is made: archives are never
   removed, so this covers a verdict read at any moment of the reconcile at which its archive existed.
   */
  ghost predicate Possible(s: System, e: Event, registry: Registry) {
    match e
    case HostMoves(after) => HostStep(s.world, after)
    case FounderSets(_) => s.todo == []
    case Starts(view) => s.todo == [] && Truthful(s.world, view, registry)
    case Writes => s.todo != [] && Relies(s.todo[0]) <= s.world.archived
    case Dies => true
  }

  function Step(s: System, e: Event): System {
    match e
    case HostMoves(after) => s.(world := after)
    case FounderSets(state) => s.(world := s.world.(generation := s.world.generation.(state := state)))
    case Starts(view) => s.(todo := Reconcile(Some(s.world.generation), view).writes)
    case Writes => if s.todo == [] then s else System(Written(s.world, s.todo[0]), s.todo[1..])
    case Dies => s.(todo := [])
  }

  function After(s: System, es: seq<Event>): System
    decreases |es|
  {
    if es == [] then s else After(Step(s, es[0]), es[1..])
  }

  ghost predicate PossibleRun(s: System, es: seq<Event>, registry: Registry)
    decreases |es|
  {
    es == [] || (Possible(s, es[0], registry) && PossibleRun(Step(s, es[0]), es[1..], registry))
  }

  ghost predicate Safe(s: System, registry: Registry) { Sound(s.world, registry) && Due(s.world, s.todo, registry) }

  lemma GrownIsSame(w: World, relies: set<Job>)
    requires relies <= w.archived && w.queued !! w.archived
    ensures Grown(w, relies) == w
  {
    assert w.archived + relies == w.archived && w.queued - relies == w.queued;
  }

  /** What one event may change. */
  ghost predicate Moves(s: System, t: System, registry: Registry) {
    var g, h := s.world.generation, t.world.generation;
    && h.id == g.id
    && g.sequence <= h.sequence
    && (forall item :: item in g.exclusions ==> item in h.exclusions)
    && (g.retryConsumed ==> h.retryConsumed)
    && s.world.feed <= t.world.feed
    && (forall job :: job in t.world.feed && job !in s.world.feed ==>
      OfGeneration(g, job) && job.ordinal == |g.sequence| + 1 && job.work.item !in g.exclusions && Offered(registry, job.work))
  }

  lemma AllowedMoves(w: World, write: Write, registry: Registry)
    requires Sound(w, registry) && Allowed(w, write, registry)
    ensures Moves(System(w, []), System(Written(w, write), []), registry)
  {
    hide IsMark, IsRecording, IsExclusion, IsPreparation, IsRetry, Sound, Moves;
    match write
    case Push(_) => PushMoves(w, write, registry);
    case Save(h, _) =>
      if IsRecording(w, h) {
        RecordingMoves(w, write, registry);
      } else {
        DecisionMoves(w, write, registry);
      }
  }

  lemma PushMoves(w: World, write: Write, registry: Registry)
    requires Sound(w, registry) && Allowed(w, write, registry) && write.Push?
    ensures Moves(System(w, []), System(Written(w, write), []), registry)
  {
    hide Accounted, Finished, GoodItems, GoodReasons, GoodSequence;
  }

  lemma RecordingMoves(w: World, write: Write, registry: Registry)
    requires Sound(w, registry) && write.Save? && IsRecording(w, write.generation)
    ensures Moves(System(w, []), System(Written(w, write), []), registry)
  {
    RecordingAppends(w, registry);
    hide Recorded, Sound;
  }

  lemma DecisionMoves(w: World, write: Write, registry: Registry)
    requires Allowed(w, write, registry) && write.Save? && !IsRecording(w, write.generation)
    ensures Moves(System(w, []), System(Written(w, write), []), registry)
  {
    hide IsRecording, NextAttempt, Offered;
  }

  lemma WriteIsSafe(w: World, todo: seq<Write>, registry: Registry)
    requires Sound(w, registry) && Due(w, todo, registry) && todo != [] && Relies(todo[0]) <= w.archived
    ensures Sound(Written(w, todo[0]), registry) && Due(Written(w, todo[0]), todo[1..], registry)
    ensures Moves(System(w, []), System(Written(w, todo[0]), []), registry)
  {
    assert w.queued !! w.archived by { assert Accounted(w); }
    hide Sound, Allowed, Moves;
    GrownIsSame(w, Relies(todo[0]));
    WritingKeepsSound(w, todo[0], registry);
    AllowedMoves(w, todo[0], registry);
  }

  lemma StepIsSafe(s: System, e: Event, registry: Registry)
    requires Safe(s, registry) && Possible(s, e, registry)
    ensures Safe(Step(s, e), registry) && Moves(s, Step(s, e), registry)
  {
    hide Sound, Due, Reconcile, Written, HostStep, Truthful;
    match e
    case HostMoves(after) =>
      HostIsSafe(s.world, after, s.todo, registry);
    case FounderSets(state) =>
      FounderIsSafe(s.world, state, registry);
    case Starts(view) =>
      ReconcileIsDue(s.world, view, registry);
    case Writes =>
      hide Moves;
      WriteIsSafe(s.world, s.todo, registry);
    case Dies =>
      NothingDue(s.world, registry);
  }

  lemma HostIsSafe(w: World, after: World, todo: seq<Write>, registry: Registry)
    requires Sound(w, registry) && Due(w, todo, registry) && HostStep(w, after)
    ensures Sound(after, registry) && Due(after, todo, registry) && after.generation == w.generation && after.feed == w.feed
  {
    HostKeepsSound(w, after, registry);
    hide Sound, Due;
    DueLater(w, after, todo, registry);
  }

  lemma FounderIsSafe(w: World, state: State, registry: Registry)
    requires Sound(w, registry)
    ensures Sound(w.(generation := w.generation.(state := state)), registry) && Due(w.(generation := w.generation.(state := state)), [], registry)
  {
    hide Sound;
    MarkKeepsSound(w, w.generation.(state := state), registry);
  }

  lemma {:induction false} RunIsSafe(s: System, es: seq<Event>, registry: Registry)
    requires Safe(s, registry) && PossibleRun(s, es, registry)
    ensures Safe(After(s, es), registry)
    decreases |es|
  {
    hide Safe, Possible, Step;
    if es != [] {
      StepIsSafe(s, es[0], registry);
      RunIsSafe(Step(s, es[0]), es[1..], registry);
    }
  }

  /** A new generation, before any of its jobs exist. */
  predicate FreshGeneration(w: World) {
    var g := w.generation;
    && g.sequence == [] && g.current.None? && g.prepared.None? && g.attempted == [] && g.exclusions == [] && !g.retryConsumed
    && (forall job :: job in w.feed + w.queued ==> !OfGeneration(g, job))
    && w.queued !! w.archived
  }

  lemma FreshIsSound(w: World, registry: Registry)
    requires FreshGeneration(w)
    ensures Sound(w, registry)
  {}

  predicate ExcludedOrCurrent(g: Generation, item: string) {
    item in g.exclusions || (g.current.Some? && g.current.value.work.item == item)
  }

  lemma AttemptedIsSettled(w: World, registry: Registry)
    requires Sound(w, registry)
    ensures forall i :: 0 <= i < |w.generation.sequence| ==> ExcludedOrCurrent(w.generation, w.generation.sequence[i].work.item)
  {
    hide GoodSequence, Accounted, Finished, GoodPrepared, GoodReasons;
  }

  /** The write about to happen prepares a provider retry. */
  predicate PreparesRetry(s: System, e: Event) {
    && e.Writes? && s.todo != [] && s.todo[0].Save? && s.todo[0].generation.prepared.Some?
    && s.todo[0].generation.prepared.value.attempt.reason == ProviderRetry
    && s.todo[0].generation.prepared != s.world.generation.prepared
  }

  /** How often a provider retry is prepared in the course of a run. */
  function RetriesPrepared(s: System, es: seq<Event>): nat
    decreases |es|
  {
    if es == [] then 0 else (if PreparesRetry(s, es[0]) then 1 else 0) + RetriesPrepared(Step(s, es[0]), es[1..])
  }

  lemma PreparingConsumes(s: System, e: Event, registry: Registry)
    requires Safe(s, registry) && Possible(s, e, registry) && PreparesRetry(s, e)
    ensures !s.world.generation.retryConsumed && Step(s, e).world.generation.retryConsumed
  {
    var w, write := s.world, s.todo[0];
    assert w.queued !! w.archived by { assert Accounted(w); }
    hide Sound;
    GrownIsSame(w, Relies(write));
    assert Allowed(w, write, registry);
  }

  lemma {:induction false} OneRetryIsPrepared(s: System, es: seq<Event>, registry: Registry)
    requires Safe(s, registry) && PossibleRun(s, es, registry)
    ensures RetriesPrepared(s, es) <= if s.world.generation.retryConsumed then 0 else 1
    decreases |es|
  {
    hide Safe, Possible, Step, PreparesRetry;
    if es != [] {
      StepIsSafe(s, es[0], registry);
      OneRetryIsPrepared(Step(s, es[0]), es[1..], registry);
      if PreparesRetry(s, es[0]) {
        PreparingConsumes(s, es[0], registry);
      }
    }
  }

  /**
   Exactly-once dispatch: however reconciles, crashes, host moves and founder commands interleave, at
   most one job of the generation is waiting or running, every prepared dispatch has at most one job
   in the feed and at most one record, and attempts never exceed the catalog's work items plus one. Every
   item attempted is excluded or current, and at most one provider retry is ever prepared.
   */
  lemma RefillIsSafe(w: World, es: seq<Event>, registry: Registry)
    requires FreshGeneration(w) && PossibleRun(System(w, []), es, registry)
    ensures
      var after := After(System(w, []), es).world;
      var attempts := after.generation.sequence;
      && |Live(after)| <= 1
      && (forall a, b | a in after.feed && b in after.feed && OfGeneration(after.generation, a) && OfGeneration(after.generation, b) ::
            a.ordinal == b.ordinal ==> a == b)
      && (forall i, j :: 0 <= i < j < |attempts| ==> attempts[i].job != attempts[j].job)
      && |attempts| <= |registry.Keys| + 1
      && (forall i, j :: 0 <= i < j < |attempts| ==> attempts[i].reason == Initial || attempts[j].reason == Initial)
      && (forall i :: 0 <= i < |attempts| ==> ExcludedOrCurrent(after.generation, attempts[i].work.item))
      && RetriesPrepared(System(w, []), es) <= 1
  {
    hide PossibleRun, After, RetriesPrepared;
    FreshIsSound(w, registry);
    hide FreshGeneration;
    var s := System(w, []);
    assert Safe(s, registry) by { NothingDue(w, registry); }
    RunIsSafe(s, es, registry);
    OneRetryIsPrepared(s, es, registry);
    var after := After(s, es).world;
    assert Sound(after, registry);
    AttemptedIsSettled(after, registry);
    AtMostOneLive(after, registry);
    AttemptsAreBounded(after, registry);
    JobsAreDistinct(after, registry);
  }

  lemma JobsAreDistinct(w: World, registry: Registry)
    requires Sound(w, registry)
    ensures
      var attempts := w.generation.sequence;
      && (forall a, b | a in w.feed && b in w.feed && OfGeneration(w.generation, a) && OfGeneration(w.generation, b) ::
            a.ordinal == b.ordinal ==> a == b)
      && (forall i, j :: 0 <= i < j < |attempts| ==> attempts[i].job != attempts[j].job)
      && (forall i, j :: 0 <= i < j < |attempts| ==> attempts[i].reason == Initial || attempts[j].reason == Initial)
  {
    forall a, b | a in w.feed && b in w.feed && OfGeneration(w.generation, a) && OfGeneration(w.generation, b) && a.ordinal == b.ordinal
      ensures a == b
    {
      hide Sound;
      OneJobPerDispatch(w, registry, a, b);
    }
  }

  lemma MovesCompose(a: System, b: System, c: System, registry: Registry, item: string)
    requires Moves(a, b, registry) && item in a.world.generation.exclusions
    requires forall job :: job in c.world.feed && OfGeneration(b.world.generation, job) && job.work.item == item ==> job in b.world.feed
    ensures forall job :: job in c.world.feed && OfGeneration(a.world.generation, job) && job.work.item == item ==> job in a.world.feed
  {}

  /** Once an item is excluded, no job for it is ever sent again; and nothing recorded is ever lost. */
  lemma {:induction false} ExcludedItemsStayOut(s: System, es: seq<Event>, registry: Registry, item: string)
    requires Safe(s, registry) && PossibleRun(s, es, registry) && item in s.world.generation.exclusions
    ensures
      var t := After(s, es);
      && (forall job :: job in t.world.feed && OfGeneration(s.world.generation, job) && job.work.item == item ==> job in s.world.feed)
      && t.world.generation.id == s.world.generation.id && s.world.generation.sequence <= t.world.generation.sequence
    decreases |es|
  {
    hide Safe, Possible, Step;
    if es != [] {
      var next := Step(s, es[0]);
      StepIsSafe(s, es[0], registry);
      ExcludedItemsStayOut(next, es[1..], registry, item);
      MovesCompose(s, next, After(s, es), registry, item);
    }
  }

  // ---- an interrupted dispatch is finished, not repeated ----

  /** The policy, health and evidence let a reconcile reach the prepared dispatch. */
  predicate Runs(g: Generation, v: View) {
    && v.policy.enabled && v.policy.desired == 1 && v.healthy
    && g.prepared.Some? && g.prepared.value.generation == g.id
    && BasisError(v.recoverCheck, g.prepared.value).None?
  }

  /** If the prepared job reached the feed before the crash, the next reconcile records it before anything else. */
  lemma InterruptedDispatchIsRecorded(g: Generation, v: View)
    requires Runs(g, v)
    requires HasMatch(g, v.sightings, g.prepared.value) && !HasConflict(g, v.sightings, g.prepared.value)
    ensures
      var writes := Reconcile(Some(g), v).writes;
      writes != [] && writes[0] == Save(Recorded(g, g.prepared.value.attempt).(prepared := None, state := Submitted), {})
  {
    hide AfterRecovery, BasisError, HasMatch, HasConflict;
    assert WithGeneration(g, v).writes[0] == RecoverPrepared(g, v.recoverCheck, v.sightings).writes[0] by {
      assert RecoverPrepared(g, v.recoverCheck, v.sightings).Continue?;
    }
  }

  /** Nothing of the prepared job is found, nothing is in the way, and the replayed builder is admitted. */
  predicate Replays(g: Generation, v: View) {
    && Runs(g, v) && BasisError(v.replayCheck, g.prepared.value).None?
    && (forall i :: 0 <= i < |v.sightings| ==> v.sightings[i].job != g.prepared.value.attempt.job && v.sightings[i].claim != BadClaim(g.id))
    && Strays(g, v.sightings) == [] && !g.recoveryError && Occupancy(v).None?
    && v.submit.refusal.None? && Select(v.submit.catalog, g.prepared.value.exclusions).Ok?
    && Select(v.submit.catalog, g.prepared.value.exclusions).value.Some?
  }

  lemma ReplayDecides(g: Generation, v: View)
    requires Replays(g, v)
    ensures Reconcile(Some(g), v).writes == Replay(g, g.prepared.value, v.submit).writes
  {
    var p := g.prepared.value;
    assert !HasMatch(g, v.sightings, p) && !HasConflict(g, v.sightings, p);
    assert RecoverPrepared(g, v.recoverCheck, v.sightings) == Continue([], g);
    assert RecoverPrepared(g, v.replayCheck, v.sightings) == Continue([], g);
    assert RecoverUnrecorded(g, v.sightings) == Continue([], g);
    hide RecoverPrepared, RecoverUnrecorded, Replay, Occupancy, Select, BasisError, Strays;
    assert Advance(g, v).writes == Replay(g, p, v.submit).writes;
    assert AfterRecovery(g, v).writes == Advance(g, v).writes;
  }

  /** The submitted job is found, as it was prepared, wherever its file has got to. */
  predicate Sees(v: View, p: Prepared) {
    && (exists i :: 0 <= i < |v.sightings| && v.sightings[i].job == p.attempt.job)
    && (forall i :: 0 <= i < |v.sightings| && v.sightings[i].job == p.attempt.job ==> Matches(v.sightings[i], p))
  }

  lemma SeenIsMatched(g: Generation, v: View)
    requires Runs(g, v) && Sees(v, g.prepared.value)
    ensures HasMatch(g, v.sightings, g.prepared.value) && !HasConflict(g, v.sightings, g.prepared.value)
  {
    hide BasisError, Matches;
  }

  /**
   If the crash came before the submission, the next reconcile with free capacity submits the same
   job once and records it; a generation blocked in between is recorded by the reconcile after that.
   */
  lemma LostDispatchIsReplayed(g: Generation, v: View, next: View)
    requires Replays(g, v)
    requires
      var p := g.prepared.value;
      && Select(v.submit.catalog, p.exclusions).value.value.work == p.attempt.work
      && p.attempt.job == JobFor(g, p.attempt.ordinal, p.attempt.retry, p.attempt.work)
      && p.attempt.job !in v.submit.running + v.submit.pending + v.submit.archived + v.submit.feed
    ensures
      var a := g.prepared.value.attempt;
      var recorded := Save(Recorded(g, a).(prepared := None, state := Submitted), {});
      && Reconcile(Some(g), v).writes == [Push(a.job)] + (if g.state == Blocked then [] else [recorded])
      && (g.state == Blocked && Runs(g, next) && Sees(next, g.prepared.value) ==>
            Reconcile(Some(g), next).writes != [] && Reconcile(Some(g), next).writes[0] == recorded)
  {
    if Runs(g, next) && Sees(next, g.prepared.value) {
      SeenIsMatched(g, next);
      InterruptedDispatchIsRecorded(g, next);
    }
    ReplayDecides(g, v);
    hide Reconcile, Select, BasisError, Strays, Recorded;
    var p := g.prepared.value;
    var built := Build(g, p.attempt.ordinal, p.attempt.retry, p.exclusions, p.attempt.work.item, true, v.submit);
    assert built == InFeed(p.attempt.work, p.attempt.job, true);
    assert Attempt(p.attempt.ordinal, p.attempt.retry, p.attempt.reason, p.attempt.work, p.attempt.job) == p.attempt;
  }

  /** The packet the replayed builder selects. */
  function Replayed(g: Generation, v: View): Work
    requires Replays(g, v)
  {
    Select(v.submit.catalog, g.prepared.value.exclusions).value.value.work
  }

  /** The packet of the prepared item changed meanwhile, and the job of the new one is nowhere yet. */
  predicate Changed(g: Generation, v: View)
    requires Replays(g, v)
  {
    var a, work := g.prepared.value.attempt, Replayed(g, v);
    && work != a.work && (a.work.item == "" || work.item == a.work.item)
    && JobFor(g, a.ordinal, a.retry, work) !in v.submit.running + v.submit.pending + v.submit.archived + v.submit.feed
  }

  /**
   Why packets must stay fixed: a replay submits a job that was never prepared exactly if the packet of the
   prepared item changed meanwhile and the job of the new one is nowhere yet. It notices only afterwards, and
   leaves the preparation standing.
   */
  lemma ChangedPacketEscapes(g: Generation, v: View)
    requires Replays(g, v)
    requires var a := g.prepared.value.attempt; a.job == JobFor(g, a.ordinal, a.retry, a.work)
    ensures
      var a := g.prepared.value.attempt;
      var writes := Reconcile(Some(g), v).writes;
      && ((exists i :: 0 <= i < |writes| && writes[i].Push? && writes[i].job != a.job) <==> Changed(g, v))
      && (Changed(g, v) ==> writes == [Push(JobFor(g, a.ordinal, a.retry, Replayed(g, v))), Save(Block(g), {})])
  {
    ReplayDecides(g, v);
    BuiltAnew(g, v);
    hide Reconcile, Replays, Changed, Replayed, Build;
    ReplayPushes(g, g.prepared.value, v.submit);
  }

  /** What the replayed builder makes. */
  function Rebuilt(g: Generation, p: Prepared, r: BuildReads): Built {
    Build(g, p.attempt.ordinal, p.attempt.retry, p.exclusions, p.attempt.work.item, true, r)
  }

  lemma BuiltAnew(g: Generation, v: View)
    requires Replays(g, v)
    requires var a := g.prepared.value.attempt; a.job == JobFor(g, a.ordinal, a.retry, a.work)
    ensures
      var a, built := g.prepared.value.attempt, Rebuilt(g, g.prepared.value, v.submit);
      && (built.InFeed? && built.isNew && built.job != a.job <==> Changed(g, v))
      && (Changed(g, v) ==> built.job == JobFor(g, a.ordinal, a.retry, Replayed(g, v)))
  {
    hide Select, BasisError, Strays, Occupancy;
  }

  /** A replay submits what was built anew, and nothing else; another job than the prepared one blocks. */
  lemma ReplayPushes(g: Generation, p: Prepared, r: BuildReads)
    ensures
      var built, writes := Rebuilt(g, p, r), Replay(g, p, r).writes;
      && ((exists i :: 0 <= i < |writes| && writes[i].Push? && writes[i].job != p.attempt.job) <==>
          built.InFeed? && built.isNew && built.job != p.attempt.job)
      && (built.InFeed? && built.isNew && built.job != p.attempt.job ==> writes == [Push(built.job), Save(Block(g), {})])
  {
    hide Build, Recorded;
    var built, writes := Rebuilt(g, p, r), Replay(g, p, r).writes;
    if built.InFeed? && built.isNew {
      assert writes[0] == Push(built.job) && forall i :: 0 < i < |writes| ==> writes[i].Save?;
    } else {
      assert forall i :: 0 <= i < |writes| ==> writes[i].Save?;
    }
  }

  // ---- a dispatch is saved only on evidence that is current ----

  /** Every preparation among the writes passed the basis check made under the evidence lock. */
  predicate OnCurrentBasis(writes: seq<Write>, check: Evidence) {
    forall i :: 0 <= i < |writes| && writes[i].Save? && writes[i].generation.prepared.Some? ==>
      BasisError(check, writes[i].generation.prepared.value).None?
  }

  lemma DispatchIsOnCurrentBasis(g: Generation, v: View, reason: Reason, item: string, exclusions: seq<string>,
                                 basis: Option<Basis>, relies: set<Job>)
    requires g.prepared.None?
    ensures OnCurrentBasis(Dispatch(g, v, reason, item, exclusions, basis, relies).writes, v.commitCheck)
  {
    hide BasisError, Build, Bind, Recorded, DispatchPrepared;
    var ordinal: nat, retry: nat := |g.sequence| + 1, if reason == ProviderRetry then 1 else 0;
    var dry := Build(g, ordinal, retry, exclusions, item, false, v.dry);
    if dry.Constructed? {
      PreparationIsOnCurrentBasis(g, v, PreparedWith(g, reason, ordinal, retry, exclusions, dry, basis), relies);
    }
  }

  lemma PreparationIsOnCurrentBasis(g: Generation, v: View, p: Prepared, relies: set<Job>)
    requires g.prepared.None?
    ensures OnCurrentBasis(DispatchPrepared(g, v, p, relies).writes, v.commitCheck)
  {
    hide BasisError, Build, Recorded;
  }

  lemma ChoiceIsOnCurrentBasis(g: Generation, v: View, reason: Reason, item: string, basis: Option<Basis>, relies: set<Job>)
    requires g.prepared.None?
    ensures OnCurrentBasis(Choose(g, v, reason, item, basis, relies).writes, v.commitCheck)
  {
    hide BasisError, Dispatch;
    DispatchIsOnCurrentBasis(g, v, reason, item, if item == "" then g.exclusions else Without(g.exclusions, item), basis, relies);
  }

  /**
   A saved preparation that carries a versioned basis matched the producer heads at the instant it was
   saved: they were the evidence the basis names. They had been reduced to a terminal item, and would have
   been again exactly if what that verdict rests on still held.
   */
  lemma SavedDispatchIsCurrent(g: Generation, v: View, i: int)
    requires g.prepared.None? && 0 <= i < |Proceed(g, v).writes|
    requires Proceed(g, v).writes[i].Save? && Proceed(g, v).writes[i].generation.prepared.Some?
    requires LifecycleRecovery.Sane(v.commitCheck.disk) && LifecycleJournal.Settled(v.commitCheck.disk)
    requires CanonicalClassification.AllReduced(v.commitCheck.disk)
    ensures
      var p := Proceed(g, v).writes[i].generation.prepared.value;
      p.basis.Some? ==>
        && p.basis.value.BasisV1?
        && p.basis.value.newAction == Some(Action(p.generation, p.attempt))
        && LifecycleReducer.HeadsOf(v.commitCheck.store, p.basis.value.snapshot.identity) == p.basis.value.evidence
        && p.basis.value.snapshot.itemTerminal
        && (LifecycleEvidence.Sound(v.commitCheck.store) ==> VerdictStands(v.commitCheck.store, p.basis.value.snapshot))
  {
    hide BasisError, Choose, ClassifyAttempt, VerdictStands;
    assert OnCurrentBasis(Proceed(g, v).writes, v.commitCheck) by {
      if g.current.None? {
        ChoiceIsOnCurrentBasis(g, v, Initial, "", None, {});
      } else {
        var c := g.current.value;
        match ClassifyAttempt(v.attempt)
        case ProviderFailure(_, at) =>
          ChoiceIsOnCurrentBasis(g.(retryAt := if at.Some? then at else g.retryAt), v, ProviderRetry, c.work.item, None, {c.job});
        case Terminal(basis) =>
          ChoiceIsOnCurrentBasis(ItemExcluded(g, c.work.item, basis), v, Initial, "", basis, {c.job});
        case _ =>
      }
    }
    hide Proceed;
    BasisHolds(v.commitCheck, Proceed(g, v).writes[i].generation.prepared.value);
  }
}

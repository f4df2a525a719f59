/** The files of capacity-one refill, the changes a dispatch may make to them, and what every change keeps. */
module RefillDispatch {
  import opened Outcomes
  import opened Collections
  import opened Text
  import opened PacketSelection
  import LifecycleEvidence
  import LifecycleReducer

  datatype Reason = Initial | ProviderRetry

  /** A job id determines everything a refill attempt hashes into it. */
  datatype Job = RefillJob(generation: string, ordinal: nat, retry: nat, work: Work) | OtherJob(name: string)

  datatype Attempt = Attempt(ordinal: nat, retry: nat, reason: Reason, work: Work, job: Job)

  /** The canonical evidence a dispatch was decided on. */
  datatype Basis =
    | Unversioned
    | BasisV1(prior: LifecycleEvidence.Identity, snapshot: LifecycleReducer.Snapshot,
              evidence: map<LifecycleEvidence.Kind, LifecycleEvidence.Head>,
              action: LifecycleReducer.RefillAction, newAction: Option<Action>)

  datatype Action = Action(generation: string, attempt: Attempt)

  datatype Prepared = Prepared(generation: string, attempt: Attempt, exclusions: seq<string>, basis: Option<Basis>)

  datatype State =
    | Ready | Paused | Dispatching | Submitted | Recovered | Occupied | Backpressure | Blocked | Unfilled

  datatype Generation = Generation(
    id: string, state: State, sequence: seq<Attempt>, current: Option<Attempt>, prepared: Option<Prepared>,
    attempted: seq<string>, exclusions: seq<string>, retryConsumed: bool,
    lastBasis: Option<Basis>, retryAt: Option<nat>, recoveryError: bool)

  /** The packets the catalog may ever offer: one fixed piece of work per work item. */
  type Registry = map<string, Work>

  /**
   The generation file, the jobs branch, the jobs in the host's pending and running directories, and
   the jobs with a completed or failed archive.
   */
  datatype World = World(generation: Generation, feed: set<Job>, queued: set<Job>, archived: set<Job>)

  function JobFor(g: Generation, ordinal: nat, retry: nat, work: Work): Job { RefillJob(g.id, ordinal, retry, work) }

  predicate OfGeneration(g: Generation, job: Job) { job.RefillJob? && job.generation == g.id }

  function WithItem(items: seq<string>, item: string): seq<string> {
    if item in items then items else items + [item]
  }

  /** Recording an attempt appends it unless its job is already recorded, and makes it current. */
  function Recorded(g: Generation, a: Attempt): Generation {
    g.(sequence := if exists i :: 0 <= i < |g.sequence| && g.sequence[i].job == a.job then g.sequence else g.sequence + [a],
       current := Some(a), attempted := WithItem(g.attempted, a.work.item))
  }

  // ---- changes ----

  /** One durable write, with the jobs whose archives the decision to write was read from. */
  datatype Write = Save(generation: Generation, relies: set<Job>) | Push(job: Job)

  function Relies(write: Write): set<Job> {
    match write case Save(_, relies) => relies case Push(_) => {}
  }

  function Written(w: World, write: Write): World {
    match write
    case Save(g, _) => w.(generation := g)
    case Push(job) => w.(feed := w.feed + {job})
  }

  /** Nothing but bookkeeping changes. */
  predicate IsMark(g: Generation, h: Generation) {
    h == g.(state := h.state, lastBasis := h.lastBasis, retryAt := h.retryAt, recoveryError := h.recoveryError)
  }

  /** The prepared attempt is recorded once its job is in the feed. */
  predicate IsRecording(w: World, h: Generation) {
    && w.generation.prepared.Some? && w.generation.prepared.value.attempt.job in w.feed
    && IsMark(Recorded(w.generation, w.generation.prepared.value.attempt).(prepared := None), h)
  }

  /** A finished attempt's item is excluded. */
  predicate IsExclusion(w: World, h: Generation) {
    var g := w.generation;
    && g.prepared.None? && g.current.Some? && g.current.value.job in w.archived
    && IsMark(g.(exclusions := WithItem(g.exclusions, g.current.value.work.item), current := None), h)
  }

  predicate Offered(registry: Registry, work: Work) {
    && work.item in registry && registry[work.item] == work
    && work.item != "" && Strip(work.item) == work.item
  }

  predicate NextAttempt(g: Generation, a: Attempt) {
    a.ordinal == |g.sequence| + 1 && a.job == JobFor(g, a.ordinal, a.retry, a.work)
  }

  predicate IsFirstAttempt(g: Generation, a: Attempt, registry: Registry) {
    && NextAttempt(g, a) && a.retry == 0 && a.reason == Initial
    && Offered(registry, a.work) && a.work.item !in g.exclusions
  }

  predicate IsSecondAttempt(g: Generation, a: Attempt, item: string, registry: Registry) {
    && NextAttempt(g, a) && a.retry == 1 && a.reason == ProviderRetry
    && Offered(registry, a.work) && a.work.item == item
  }

  /** A new item is prepared when nothing is current. */
  predicate IsPreparation(w: World, h: Generation, registry: Registry) {
    var g := w.generation;
    && g.prepared.None? && g.current.None?
    && h.prepared.Some? && h.prepared.value.generation == g.id && IsFirstAttempt(g, h.prepared.value.attempt, registry)
    && IsMark(g.(prepared := h.prepared), h)
  }

  /** A failed attempt's item is prepared once more, consuming the one retry. */
  predicate IsRetry(w: World, h: Generation, registry: Registry) {
    var g := w.generation;
    && g.prepared.None? && g.current.Some? && g.current.value.job in w.archived && !g.retryConsumed
    && h.prepared.Some? && h.prepared.value.generation == g.id
    && IsSecondAttempt(g, h.prepared.value.attempt, g.current.value.work.item, registry)
    && IsMark(g.(prepared := h.prepared, retryConsumed := true), h)
  }

  predicate Allowed(w: World, write: Write, registry: Registry) {
    match write
    case Push(job) => w.generation.prepared.Some? && job == w.generation.prepared.value.attempt.job
    case Save(h, _) =>
      || IsMark(w.generation, h) || IsRecording(w, h) || IsExclusion(w, h)
      || IsPreparation(w, h, registry) || IsRetry(w, h, registry)
  }

  /**
   What the host may do: import feed jobs that have no archive, take in jobs that are not refill jobs,
   move jobs along, and archive them for good.
   */
  predicate HostStep(a: World, b: World) {
    && b.generation == a.generation && b.feed == a.feed
    && a.archived <= b.archived && b.archived !! b.queued
    && forall job :: job in b.queued ==> job in a.queued || (job in a.feed && job !in a.archived) || job.OtherJob?
  }

  // ---- the invariant ----

  predicate GoodSequence(g: Generation) {
    && (forall i :: 0 <= i < |g.sequence| ==>
      g.sequence[i].ordinal == i + 1 && g.sequence[i].job == JobFor(g, i + 1, g.sequence[i].retry, g.sequence[i].work))
    && (g.current.Some? ==> |g.sequence| > 0 && g.current.value == g.sequence[|g.sequence| - 1])
  }

  /** Every refill job in the feed is recorded or prepared, and every recorded job is in the feed. */
  predicate Accounted(w: World) {
    var g := w.generation;
    && (forall job :: job in w.feed && OfGeneration(g, job) ==>
      || (exists i :: 0 <= i < |g.sequence| && g.sequence[i].job == job)
      || (g.prepared.Some? && job == g.prepared.value.attempt.job))
    && (forall i :: 0 <= i < |g.sequence| ==> g.sequence[i].job in w.feed)
    && (forall job :: job in w.queued && OfGeneration(g, job) ==> job in w.feed)
    && w.queued !! w.archived
  }

  predicate IsCurrent(g: Generation, i: int) { g.current.Some? && i == |g.sequence| - 1 }

  /** Every recorded attempt has run to its archive, except the current one while nothing is prepared. */
  predicate Finished(w: World) {
    var g := w.generation;
    forall i :: 0 <= i < |g.sequence| && (g.prepared.Some? || !IsCurrent(g, i)) ==> g.sequence[i].job in w.archived
  }

  predicate GoodPrepared(g: Generation, registry: Registry) {
    g.prepared.Some? ==>
      var a := g.prepared.value.attempt;
      && NextAttempt(g, a) && Offered(registry, a.work) && a.work.item !in g.exclusions
      && match a.reason
         case Initial => g.current.None? && a.retry == 0
         case ProviderRetry => g.current.Some? && a.retry == 1 && a.work.item == g.current.value.work.item && g.retryConsumed
  }

  /** Each attempted item is excluded or current, a current item is not excluded, and all items come from the catalog. */
  predicate GoodItems(g: Generation, registry: Registry) {
    && (forall i :: 0 <= i < |g.sequence| ==>
      && Offered(registry, g.sequence[i].work) && g.sequence[i].work.item in g.attempted
      && (g.sequence[i].work.item in g.exclusions || (g.current.Some? && g.current.value.work.item == g.sequence[i].work.item)))
    && (forall item :: item in g.attempted ==> exists i :: 0 <= i < |g.sequence| && g.sequence[i].work.item == item)
    && (g.current.Some? ==> g.current.value.work.item !in g.exclusions)
  }

  /** First attempts are at distinct items; the one retry repeats the item before it. */
  predicate GoodReasons(g: Generation) {
    && (forall i, j :: 0 <= i < j < |g.sequence| && g.sequence[i].reason == Initial && g.sequence[j].reason == Initial ==>
      g.sequence[i].work.item != g.sequence[j].work.item)
    && (forall i :: 0 <= i < |g.sequence| && g.sequence[i].reason == ProviderRetry ==>
      g.retryConsumed && i > 0 && g.sequence[i - 1].work.item == g.sequence[i].work.item)
    && (forall i, j :: 0 <= i < j < |g.sequence| ==> g.sequence[i].reason == Initial || g.sequence[j].reason == Initial)
    && (g.prepared.Some? && g.prepared.value.attempt.reason == ProviderRetry ==>
      forall i :: 0 <= i < |g.sequence| ==> g.sequence[i].reason == Initial)
  }

  predicate Sound(w: World, registry: Registry) {
    && GoodSequence(w.generation) && Accounted(w) && Finished(w)
    && GoodPrepared(w.generation, registry) && GoodItems(w.generation, registry) && GoodReasons(w.generation)
  }

  // ---- every change keeps it ----

  lemma RecordingAppends(w: World, registry: Registry)
    requires Sound(w, registry) && w.generation.prepared.Some?
    ensures
      var g, a := w.generation, w.generation.prepared.value.attempt;
      Recorded(g, a) == g.(sequence := g.sequence + [a], current := Some(a), attempted := WithItem(g.attempted, a.work.item))
  {}

  lemma RecordingKeepsAccounted(w: World, h: Generation, registry: Registry)
    requires Sound(w, registry) && IsRecording(w, h)
    ensures GoodSequence(h) && Accounted(w.(generation := h)) && Finished(w.(generation := h)) && GoodPrepared(h, registry)
  {
    hide GoodItems, GoodReasons;
    var g, a, n := w.generation, w.generation.prepared.value.attempt, |w.generation.sequence|;
    RecordingAppends(w, registry);
    hide Recorded;
    assert h.sequence == g.sequence + [a] && h.id == g.id;
    forall job | job in w.feed && OfGeneration(h, job) ensures exists i :: 0 <= i < |h.sequence| && h.sequence[i].job == job {
      assert OfGeneration(g, job);
      if i :| 0 <= i < n && g.sequence[i].job == job {
        assert h.sequence[i].job == job;
      } else {
        assert h.sequence[n].job == job;
      }
    }
  }

  lemma RecordingKeepsItems(w: World, h: Generation, registry: Registry)
    requires Sound(w, registry) && IsRecording(w, h)
    ensures GoodItems(h, registry)
  {
    hide Accounted, Finished, GoodReasons;
    var g, a, n := w.generation, w.generation.prepared.value.attempt, |w.generation.sequence|;
    RecordingAppends(w, registry);
    hide Recorded;
    assert h.sequence == g.sequence + [a] && h.id == g.id;
    forall item | item in h.attempted ensures exists i :: 0 <= i < |h.sequence| && h.sequence[i].work.item == item {
      if item in g.attempted {
        var i :| 0 <= i < n && g.sequence[i].work.item == item;
        assert h.sequence[i].work.item == item;
      } else {
        assert h.sequence[n].work.item == item;
      }
    }
  }

  lemma RecordingKeepsReasons(w: World, h: Generation, registry: Registry)
    requires Sound(w, registry) && IsRecording(w, h)
    ensures GoodReasons(h)
  {
    RecordingAppends(w, registry);
    PreparedFits(w.generation, registry);
    hide Recorded, Sound;
    AppendingKeepsReasons(w.generation, w.generation.prepared.value.attempt, h);
  }

  /** An attempt that may come next: a first one at a new item, or the one retry of the last item. */
  predicate FitsNext(g: Generation, a: Attempt) {
    match a.reason
    case Initial => forall i :: 0 <= i < |g.sequence| && g.sequence[i].reason == Initial ==> g.sequence[i].work.item != a.work.item
    case ProviderRetry =>
      && g.retryConsumed && g.sequence != [] && g.sequence[|g.sequence| - 1].work.item == a.work.item
      && forall i :: 0 <= i < |g.sequence| ==> g.sequence[i].reason == Initial
  }

  lemma PreparedFits(g: Generation, registry: Registry)
    requires g.prepared.Some? && GoodSequence(g) && GoodPrepared(g, registry) && GoodItems(g, registry) && GoodReasons(g)
    ensures FitsNext(g, g.prepared.value.attempt)
  {
    hide Offered, NextAttempt;
  }

  lemma AppendingKeepsReasons(g: Generation, a: Attempt, h: Generation)
    requires GoodReasons(g) && FitsNext(g, a) && h.sequence == g.sequence + [a] && h.retryConsumed == g.retryConsumed && h.prepared.None?
    ensures GoodReasons(h)
  {
    var n := |g.sequence|;
    assert h.sequence[n] == a && forall i :: 0 <= i < n ==> h.sequence[i] == g.sequence[i];
  }

  lemma RecordingKeepsSound(w: World, h: Generation, registry: Registry)
    requires Sound(w, registry) && IsRecording(w, h)
    ensures Sound(w.(generation := h), registry)
  {
    hide GoodSequence, Accounted, Finished, GoodPrepared, GoodItems, GoodReasons, IsRecording;
    RecordingKeepsAccounted(w, h, registry);
    RecordingKeepsItems(w, h, registry);
    RecordingKeepsReasons(w, h, registry);
  }

  lemma WithItemAdds(items: seq<string>, item: string, x: string)
    ensures x in WithItem(items, item) <==> x in items || x == item
  {}

  lemma ExclusionKeepsItems(w: World, h: Generation, registry: Registry)
    requires Sound(w, registry) && IsExclusion(w, h)
    ensures GoodItems(h, registry) && GoodReasons(h)
  {
    hide Accounted, Finished, GoodPrepared, WithItem;
    var g := w.generation;
    forall i | 0 <= i < |g.sequence| ensures g.sequence[i].work.item in h.exclusions {
      WithItemAdds(g.exclusions, g.current.value.work.item, g.sequence[i].work.item);
    }
  }

  lemma ExclusionKeepsSound(w: World, h: Generation, registry: Registry)
    requires Sound(w, registry) && IsExclusion(w, h)
    ensures Sound(w.(generation := h), registry)
  {
    ExclusionKeepsItems(w, h, registry);
    ExclusionLeavesFinished(w, h);
    hide GoodItems, GoodReasons, Finished, WithItem;
    assert h.sequence == w.generation.sequence && h.id == w.generation.id && h.prepared.None? && h.current.None?;
    hide IsExclusion;
    AccountedAs(w, h);
    hide Accounted;
  }

  lemma ExclusionLeavesFinished(w: World, h: Generation)
    requires GoodSequence(w.generation) && Finished(w) && IsExclusion(w, h)
    ensures Finished(w.(generation := h))
  {
    hide WithItem;
    assert h.sequence == w.generation.sequence;
  }

  lemma AccountedAs(w: World, h: Generation)
    requires Accounted(w) && h.id == w.generation.id && h.sequence == w.generation.sequence && h.prepared == w.generation.prepared
    ensures Accounted(w.(generation := h))
  {}

  lemma PreparationKeepsSound(w: World, h: Generation, registry: Registry)
    requires Sound(w, registry) && IsPreparation(w, h, registry)
    ensures Sound(w.(generation := h), registry)
  {
    assert h.sequence == w.generation.sequence && h.id == w.generation.id;
    assert GoodSequence(h) && Accounted(w.(generation := h)) && Finished(w.(generation := h)) && GoodPrepared(h, registry) by {
      hide GoodItems, GoodReasons;
    }
    assert GoodItems(h, registry) && GoodReasons(h) by {
      hide Accounted, Finished;
    }
    hide Accounted, Finished, GoodItems, GoodReasons, GoodPrepared, GoodSequence;
  }

  lemma RetryKeepsSound(w: World, h: Generation, registry: Registry)
    requires Sound(w, registry) && IsRetry(w, h, registry)
    ensures Sound(w.(generation := h), registry)
  {
    RetryKeepsItems(w, h, registry);
    RetryKeepsAccounts(w, h, registry);
    hide GoodItems, GoodReasons, GoodPrepared, GoodSequence, Accounted, Finished, IsRetry;
  }

  lemma RetryKeepsAccounts(w: World, h: Generation, registry: Registry)
    requires Sound(w, registry) && IsRetry(w, h, registry)
    ensures GoodSequence(h) && Accounted(w.(generation := h)) && Finished(w.(generation := h))
  {
    var g := w.generation;
    assert h.sequence == g.sequence && h.id == g.id && h.current == g.current;
    assert g.prepared.None? && g.current.Some? && g.current.value.job in w.archived;
    hide IsRetry, GoodItems, GoodReasons, GoodPrepared;
    PreparingKeepsAccounted(w, h);
    RetryKeepsFinished(w, h);
    hide Accounted, Finished;
  }

  lemma PreparingKeepsAccounted(w: World, h: Generation)
    requires Accounted(w) && w.generation.prepared.None? && h.sequence == w.generation.sequence && h.id == w.generation.id
    ensures Accounted(w.(generation := h))
  {
    var t := w.(generation := h);
    forall job | job in t.feed && OfGeneration(h, job) ensures exists i :: 0 <= i < |h.sequence| && h.sequence[i].job == job {
      assert OfGeneration(w.generation, job);
    }
  }

  lemma RetryKeepsFinished(w: World, h: Generation)
    requires Finished(w) && GoodSequence(w.generation) && w.generation.prepared.None?
    requires w.generation.current.Some? && w.generation.current.value.job in w.archived
    requires h.sequence == w.generation.sequence && h.current == w.generation.current
    ensures Finished(w.(generation := h))
  {
    var g := w.generation;
    forall i | 0 <= i < |h.sequence| ensures h.sequence[i].job in w.archived {
      assert IsCurrent(g, i) ==> g.sequence[i] == g.current.value;
    }
  }

  lemma RetryKeepsItems(w: World, h: Generation, registry: Registry)
    requires Sound(w, registry) && IsRetry(w, h, registry)
    ensures GoodPrepared(h, registry) && GoodItems(h, registry) && GoodReasons(h)
  {
    hide Accounted, Finished, OfGeneration;
    assert h.sequence == w.generation.sequence && h.exclusions == w.generation.exclusions && h.current == w.generation.current;
  }

  lemma MarkKeepsSound(w: World, h: Generation, registry: Registry)
    requires Sound(w, registry) && IsMark(w.generation, h)
    ensures Sound(w.(generation := h), registry)
  {
    MarkKeepsAccounts(w, h, registry);
    MarkKeepsItems(w.generation, h, registry);
    hide Accounted, Finished, GoodItems, GoodReasons, GoodPrepared, GoodSequence, IsMark;
  }

  lemma MarkKeepsAccounts(w: World, h: Generation, registry: Registry)
    requires Sound(w, registry) && IsMark(w.generation, h)
    ensures GoodSequence(h) && Accounted(w.(generation := h)) && Finished(w.(generation := h)) && GoodPrepared(h, registry)
  {
    hide GoodItems, GoodReasons;
    assert h.sequence == w.generation.sequence && h.id == w.generation.id;
  }

  lemma MarkKeepsItems(g: Generation, h: Generation, registry: Registry)
    requires GoodItems(g, registry) && GoodReasons(g) && IsMark(g, h)
    ensures GoodItems(h, registry) && GoodReasons(h)
  {
    assert h.sequence == g.sequence;
    hide Offered;
  }

  lemma PushKeepsSound(w: World, job: Job, registry: Registry)
    requires Sound(w, registry) && Allowed(w, Push(job), registry)
    ensures Sound(Written(w, Push(job)), registry)
  {}

  lemma WritingKeepsSound(w: World, write: Write, registry: Registry)
    requires Sound(w, registry) && Allowed(w, write, registry)
    ensures Sound(Written(w, write), registry)
  {
    hide Sound, IsMark, IsRecording, IsExclusion, IsPreparation, IsRetry;
    match write
    case Push(job) => PushKeepsSound(w, job, registry);
    case Save(h, _) =>
      if IsMark(w.generation, h) {
        MarkKeepsSound(w, h, registry);
      } else if IsRecording(w, h) {
        RecordingKeepsSound(w, h, registry);
      } else if IsExclusion(w, h) {
        ExclusionKeepsSound(w, h, registry);
      } else if IsPreparation(w, h, registry) {
        PreparationKeepsSound(w, h, registry);
      } else {
        RetryKeepsSound(w, h, registry);
      }
  }

  lemma HostKeepsSound(a: World, b: World, registry: Registry)
    requires Sound(a, registry) && HostStep(a, b)
    ensures Sound(b, registry)
  {}

  // ---- what it means ----

  /** The generation's jobs that are in the feed or queued and have no archive yet. */
  ghost function Live(w: World): set<Job> {
    set job | job in w.feed + w.queued && OfGeneration(w.generation, job) && job !in w.archived
  }

  /** At most one job of the generation is waiting or running. */
  lemma AtMostOneLive(w: World, registry: Registry)
    requires Sound(w, registry)
    ensures |Live(w)| <= 1
  {
    var g := w.generation;
    var only := if g.prepared.Some? then {g.prepared.value.attempt.job} else if g.current.Some? then {g.current.value.job} else {};
    assert Live(w) <= only by {
      forall job | job in Live(w) ensures job in only {
        assert job in w.feed;
        if i :| 0 <= i < |g.sequence| && g.sequence[i].job == job {
          assert g.prepared.None? && IsCurrent(g, i);
        }
      }
    }
    SubsetIsSmaller(Live(w), only);
  }

  /** A dispatch, named by its ordinal, has at most one job in the feed and at most one record. */
  lemma OneJobPerDispatch(w: World, registry: Registry, a: Job, b: Job)
    requires Sound(w, registry) && a in w.feed && b in w.feed && OfGeneration(w.generation, a) && OfGeneration(w.generation, b)
    requires a.ordinal == b.ordinal
    ensures a == b
  {}

  function FirstItems(attempts: seq<Attempt>): set<string> {
    set i | 0 <= i < |attempts| && attempts[i].reason == Initial :: attempts[i].work.item
  }

  /** How many attempts are first attempts. */
  function FirstCount(attempts: seq<Attempt>): nat {
    if attempts == [] then 0
    else FirstCount(attempts[..|attempts| - 1]) + (if attempts[|attempts| - 1].reason == Initial then 1 else 0)
  }

  lemma {:induction false} FirstItemsAreCounted(attempts: seq<Attempt>)
    requires forall i, j :: 0 <= i < j < |attempts| && attempts[i].reason == Initial && attempts[j].reason == Initial ==>
      attempts[i].work.item != attempts[j].work.item
    ensures |FirstItems(attempts)| == FirstCount(attempts)
  {
    if attempts != [] {
      var front, last := attempts[..|attempts| - 1], attempts[|attempts| - 1];
      FirstItemsAreCounted(front);
      FirstItemsOfLast(attempts);
      if last.reason == Initial {
        assert last.work.item !in FirstItems(front);
      }
    }
  }

  lemma FirstItemsOfLast(attempts: seq<Attempt>)
    requires attempts != []
    ensures
      var front, last := attempts[..|attempts| - 1], attempts[|attempts| - 1];
      FirstItems(attempts) == FirstItems(front) + (if last.reason == Initial then {last.work.item} else {})
  {
    var front, last := attempts[..|attempts| - 1], attempts[|attempts| - 1];
    forall item ensures item in FirstItems(attempts) <==> item in FirstItems(front) || (last.reason == Initial && item == last.work.item) {
      if item in FirstItems(front) {
        var i :| 0 <= i < |front| && front[i].reason == Initial && front[i].work.item == item;
        assert attempts[i] == front[i];
      }
      if item in FirstItems(attempts) {
        var i :| 0 <= i < |attempts| && attempts[i].reason == Initial && attempts[i].work.item == item;
        if i < |front| {
          assert attempts[i] == front[i];
        }
      }
    }
  }

  lemma {:induction false} AtMostOneRetry(attempts: seq<Attempt>)
    requires forall i, j :: 0 <= i < j < |attempts| ==> attempts[i].reason == Initial || attempts[j].reason == Initial
    ensures |attempts| <= FirstCount(attempts) + 1
    ensures (forall i :: 0 <= i < |attempts| ==> attempts[i].reason == Initial) ==> |attempts| == FirstCount(attempts)
  {
    if attempts != [] {
      var n := |attempts| - 1;
      AtMostOneRetry(attempts[..n]);
      if attempts[n].reason != Initial {
        assert forall i :: 0 <= i < n ==> attempts[..n][i] == attempts[i] && attempts[i].reason == Initial;
      }
    }
  }

  /** Attempts never exceed the work items in the catalog plus the one provider retry. */
  lemma AttemptsAreBounded(w: World, registry: Registry)
    requires Sound(w, registry)
    ensures |w.generation.sequence| <= |registry.Keys| + 1
  {
    hide Accounted, Finished, GoodPrepared, GoodSequence;
    var attempts := w.generation.sequence;
    FirstItemsAreCounted(attempts);
    AtMostOneRetry(attempts);
    hide FirstCount;
    SubsetIsSmaller(FirstItems(attempts), registry.Keys);
  }
}

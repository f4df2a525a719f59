/** What one reconcile decides: the durable writes it makes, in order, and what it reports. */
module RefillPlan {
  import opened Outcomes
  import opened PacketSelection
  import opened RefillDispatch
  import opened DecisionBasis
  import CanonicalClassification

  // ---- what a reconcile reads ----

  datatype Policy = Policy(enabled: bool, desired: nat, queueCap: nat, reviewCap: nat)

  /** What a job file says about the refill attempt it belongs to. */
  datatype Claim =
    | NoClaim
    | BadClaim(generation: string)
    | AttemptClaim(generation: string, ordinal: nat, retry: nat, reason: Reason, work: Work)

  /** A job file found in the feed, the queue or an archive. */
  datatype Sighting = Sighting(job: Job, claim: Claim)

  datatype Category =
    | InFlight
    | ProviderFailure(retryable: bool, retryAt: Option<nat>)
    | Terminal(basis: Option<Basis>)
    | Unclear

  datatype Archive = NoArchive | FailedArchive(failure: Category) | CompletedArchive

  /** What is read about the current attempt. */
  datatype AttemptReads = AttemptReads(
    canonical: Result<CanonicalClassification.Verdict, CanonicalClassification.CanonicalFault>, queued: bool, archive: Archive, inFeed: bool,
    publisherSeen: bool, revision: Option<Category>, gateRejected: bool)

  /** What the dispatch builder reads: the catalog, the job files, and the outcome of its admission checks. */
  datatype BuildReads = BuildReads(
    catalog: seq<Packet>, running: set<Job>, pending: set<Job>, archived: set<Job>, feed: set<Job>,
    sameContent: bool, refusal: Option<Status>)

  datatype Jit = JitQuiet | JitNoted | JitBlocked

  datatype View = View(
    policy: Policy, running: nat, queued: nat, awaiting: nat, reviews: map<string, nat>, healthy: bool,
    sightings: seq<Sighting>, attempt: AttemptReads, now: nat, jit: Jit,
    recoverCheck: Evidence, replayCheck: Evidence, commitCheck: Evidence, dry: BuildReads, submit: BuildReads)

  datatype Status =
    | IsPaused | IsBlocked | IsError | IsRunning | IsQueued | IsBackpressured | IsUnfilled | AdmissionRefuses

  datatype Cause =
    | FounderPaused | CapacityAboveOne | Unhealthy | NoGeneration | OnBasis(fault: BasisFault) | PreparedConflict
    | InvalidAttemptEvidence | AmbiguousRecovery | OrdinalConflict | QueueFull | CapacityRunning | CapacityQueued | ReviewsFull
    | PreparedReconciled | BuildReconciled | TrackedAttempt | ProviderDown | AmbiguousAttempt | CatalogFailed | NotReached

  datatype Report = Report(status: Status, reason: Cause)

  datatype Plan = Plan(writes: seq<Write>, report: Report)

  /** A phase either ends the reconcile or hands on the generation it left in memory and on file. */
  datatype Phase = Done(writes: seq<Write>, report: Report) | Continue(writes: seq<Write>, generation: Generation)

  function Prefixed(writes: seq<Write>, p: Plan): Plan { Plan(writes + p.writes, p.report) }

  // ---- recovery of a prepared dispatch ----

  predicate Matches(s: Sighting, p: Prepared) {
    && s.job == p.attempt.job
    && s.claim == AttemptClaim(p.generation, p.attempt.ordinal, p.attempt.retry, p.attempt.reason, p.attempt.work)
  }

  predicate HasMatch(g: Generation, sightings: seq<Sighting>, p: Prepared) {
    p.generation == g.id && exists i :: 0 <= i < |sightings| && Matches(sightings[i], p)
  }

  predicate HasConflict(g: Generation, sightings: seq<Sighting>, p: Prepared) {
    exists i :: 0 <= i < |sightings| && sightings[i].job == p.attempt.job && !(p.generation == g.id && Matches(sightings[i], p))
  }

  function Block(g: Generation): Generation { g.(state := Blocked) }

  /** Commits a prepared dispatch whose job is already somewhere; blocks on a stale basis or a conflict. */
  function RecoverPrepared(g: Generation, check: Evidence, sightings: seq<Sighting>): Phase {
    match g.prepared
    case None => Continue([], g)
    case Some(p) =>
      var error := BasisError(check, p);
      if error.Some? then Done([Save(Block(g), {})], Report(IsBlocked, OnBasis(error.value)))
      else if HasConflict(g, sightings, p) then Done([Save(Block(g), {})], Report(IsBlocked, PreparedConflict))
      else if HasMatch(g, sightings, p) then
        var h := Recorded(g, p.attempt).(prepared := None, state := Submitted);
        Continue([Save(h, {})], h)
      else Continue([], g)
  }

  // ---- recovery of attempts that were never recorded ----

  function Claimed(s: Sighting): Attempt
    requires s.claim.AttemptClaim?
  {
    Attempt(s.claim.ordinal, s.claim.retry, s.claim.reason, s.claim.work, s.job)
  }

  predicate IsRecorded(g: Generation, job: Job) { exists i :: 0 <= i < |g.sequence| && g.sequence[i].job == job }

  predicate IsStray(g: Generation, s: Sighting) {
    s.claim.AttemptClaim? && s.claim.generation == g.id && !IsRecorded(g, s.job)
  }

  function Strays(g: Generation, sightings: seq<Sighting>): seq<Attempt> {
    if sightings == [] then []
    else (if IsStray(g, sightings[0]) then [Claimed(sightings[0])] else []) + Strays(g, sightings[1..])
  }

  function RecoverUnrecorded(g: Generation, sightings: seq<Sighting>): Phase {
    var strays := Strays(g, sightings);
    var troubled := Block(g).(recoveryError := true);
    if exists i :: 0 <= i < |sightings| && sightings[i].claim == BadClaim(g.id)
    then Done([Save(troubled, {})], Report(IsBlocked, InvalidAttemptEvidence))
    else if exists i :: 0 <= i < |strays| && strays[i] != strays[0]
    then Done([Save(troubled, {})], Report(IsBlocked, AmbiguousRecovery))
    else if strays == [] then
      if g.recoveryError then Continue([Save(g.(recoveryError := false), {})], g.(recoveryError := false)) else Continue([], g)
    else if strays[0].ordinal != |g.sequence| + 1
    then Done([Save(troubled, {})], Report(IsBlocked, OrdinalConflict))
    else
      var h := Recorded(g, strays[0]).(state := RefillDispatch.Recovered);
      Continue([Save(h, {})], h)
  }

  // ---- building and submitting a job ----

  datatype Built =
    | Refused(status: Status)
    | AlreadyRunning(work: Work, job: Job)
    | AlreadyQueued(work: Work, job: Job)
    | Constructed(work: Work, job: Job)
    | InFeed(work: Work, job: Job, isNew: bool)

  /** Selects a packet, names its job, and submits the job unless it is already somewhere or this is a dry run. */
  function Build(g: Generation, ordinal: nat, retry: nat, exclusions: seq<string>, item: string, submit: bool, r: BuildReads): Built {
    match Select(r.catalog, exclusions)
    case Err(_) => Refused(IsBlocked)
    case Ok(None) => Refused(IsUnfilled)
    case Ok(Some(packet)) =>
      if item != "" && item != packet.work.item then Refused(IsBlocked)
      else
        var job := JobFor(g, ordinal, retry, packet.work);
        if job in r.running then AlreadyRunning(packet.work, job)
        else if job in r.pending then AlreadyQueued(packet.work, job)
        else if job in r.archived then Refused(IsBlocked)
        else if r.refusal.Some? then Refused(r.refusal.value)
        else if !submit then Constructed(packet.work, job)
        else if job in r.feed then (if r.sameContent then InFeed(packet.work, job, false) else Refused(IsBlocked))
        else InFeed(packet.work, job, true)
  }

  predicate QueuedBuild(b: Built) { b.AlreadyQueued? || b.InFeed? }

  function StatusOf(b: Built): Status {
    match b
    case Refused(status) => status
    case AlreadyRunning(_, _) => IsRunning
    case Constructed(_, _) => IsUnfilled
    case _ => IsQueued
  }

  /** Submitting a prepared dispatch blocks when what was queued is not what was prepared. */
  function SubmitPrepared(g: Generation, p: Prepared, built: Built): (sent: Phase)
    ensures sent.Continue?
  {
    var pushes := if built.InFeed? && built.isNew then [Push(built.job)] else [];
    if QueuedBuild(built) && (built.job != p.attempt.job || built.work != p.attempt.work)
    then Continue(pushes + [Save(Block(g), {})], Block(g))
    else Continue(pushes, g)
  }

  function RecordBuilt(g: Generation, ordinal: nat, retry: nat, reason: Reason, built: Built): Generation
    requires QueuedBuild(built)
  {
    Recorded(g, Attempt(ordinal, retry, reason, built.work, built.job)).(prepared := None, state := Submitted)
  }

  function Replay(g: Generation, p: Prepared, r: BuildReads): Plan {
    var a := p.attempt;
    var built := Build(g, a.ordinal, a.retry, p.exclusions, a.work.item, true, r);
    var sent := SubmitPrepared(g, p, built);
    var report := Report(StatusOf(built), PreparedReconciled);
    if QueuedBuild(built) && sent.generation.state != Blocked
    then Plan(sent.writes + [Save(RecordBuilt(sent.generation, a.ordinal, a.retry, a.reason, built), {})], report)
    else Plan(sent.writes, report)
  }

  // ---- classifying the current attempt ----

  function ClassifyAttempt(r: AttemptReads): Category {
    match r.canonical
    case Err(_) => Unclear
    case Ok(MissingSnapshot) => Unclear
    case Ok(Classified(category, s)) =>
      (match category
       case ItemTerminal => Terminal(Some(BasisV1(s.identity, s, s.evidence, s.action, None)))
       case AttemptInFlight => InFlight
       case Unknown => Unclear)
    case Ok(NoVerdict) =>
      if r.queued then InFlight
      else
        match r.archive
        case NoArchive => if r.inFeed then InFlight else Unclear
        case FailedArchive(failure) => (match failure case ProviderFailure(_, _) => failure case _ => Unclear)
        case CompletedArchive =>
          if r.publisherSeen then Terminal(None)
          else if r.revision.Some? then r.revision.value
          else if r.gateRejected then Unclear
          else InFlight
  }

  // ---- a new dispatch ----

  function Without(items: seq<string>, item: string): seq<string> {
    if items == [] then [] else (if items[0] == item then [] else [items[0]]) + Without(items[1..], item)
  }

  /** The last step of a dispatch: record what was queued, or note why nothing was. */
  function Conclude(g: Generation, ordinal: nat, retry: nat, reason: Reason, built: Built): Plan {
    var report := Report(StatusOf(built), BuildReconciled);
    if QueuedBuild(built) && g.state != Blocked then Plan([Save(RecordBuilt(g, ordinal, retry, reason, built), {})], report)
    else if StatusOf(built) == IsBlocked then Plan([Save(Block(g), {})], report)
    else if StatusOf(built) == IsUnfilled then Plan([Save(g.(state := Unfilled), {})], report)
    else Plan([], report)
  }

  /** The dispatch to prepare for a job that a dry run constructed, bound to its evidence. */
  function PreparedWith(g: Generation, reason: Reason, ordinal: nat, retry: nat, exclusions: seq<string>, dry: Built, basis: Option<Basis>): Prepared
    requires dry.Constructed?
  {
    var p := Prepared(g.id, Attempt(ordinal, retry, reason, dry.work, dry.job), exclusions, None);
    p.(basis := Bind(if basis.Some? then basis else g.lastBasis, p))
  }

  function Preparing(g: Generation, p: Prepared): Generation {
    g.(lastBasis := if p.basis.Some? then p.basis else g.lastBasis, prepared := Some(p), state := Dispatching,
       retryConsumed := g.retryConsumed || p.attempt.reason == ProviderRetry)
  }

  /** Saves a prepared dispatch if its evidence is still current, then submits and records it. */
  function DispatchPrepared(g: Generation, v: View, p: Prepared, relies: set<Job>): Plan {
    var a := p.attempt;
    if BasisError(v.commitCheck, p).Some?
    then Prefixed([Save(Block(g), {})], Conclude(Block(g), a.ordinal, a.retry, a.reason, Refused(IsBlocked)))
    else
      var h := Preparing(g, p);
      var built := Build(h, a.ordinal, a.retry, p.exclusions, a.work.item, true, v.submit);
      var sent := SubmitPrepared(h, p, built);
      Prefixed([Save(h, relies)] + sent.writes, Conclude(sent.generation, a.ordinal, a.retry, a.reason, built))
  }

  /** A new dispatch: a dry run first, then the preparation of what it constructed. */
  function Dispatch(g: Generation, v: View, reason: Reason, item: string, exclusions: seq<string>, basis: Option<Basis>, relies: set<Job>): Plan {
    var ordinal, retry := |g.sequence| + 1, if reason == ProviderRetry then 1 else 0;
    var dry := Build(g, ordinal, retry, exclusions, item, false, v.dry);
    if !dry.Constructed? then Conclude(g, ordinal, retry, reason, dry)
    else DispatchPrepared(g, v, PreparedWith(g, reason, ordinal, retry, exclusions, dry, basis), relies)
  }

  /** Selection, once it is known whether an item is being retried. */
  function Choose(g: Generation, v: View, reason: Reason, item: string, basis: Option<Basis>, relies: set<Job>): Plan {
    var exclusions := if item == "" then g.exclusions else Without(g.exclusions, item);
    match v.jit
    case JitBlocked => Plan([Save(Block(g), relies)], Report(IsBlocked, CatalogFailed))
    case JitNoted => Prefixed([Save(g, relies)], Dispatch(g, v, reason, item, exclusions, basis, relies))
    case JitQuiet => Dispatch(g, v, reason, item, exclusions, basis, relies)
  }

  /** The generation once its finished current attempt's item is excluded. */
  function ItemExcluded(g: Generation, item: string, basis: Option<Basis>): Generation {
    g.(exclusions := if item == "" then g.exclusions else WithItem(g.exclusions, item), current := None, retryAt := None,
       state := Ready, lastBasis := if basis.Some? then basis else g.lastBasis)
  }

  function Proceed(g: Generation, v: View): Plan {
    match g.current
    case None => Choose(g, v, Initial, "", None, {})
    case Some(c) =>
      match ClassifyAttempt(v.attempt)
      case InFlight => Plan([Save(g.(state := Occupied), {})], Report(IsRunning, TrackedAttempt))
      case ProviderFailure(retryable, at) =>
        var h := g.(retryAt := if at.Some? then at else g.retryAt);
        if retryable && h.retryAt.Some? && v.now >= h.retryAt.value && !g.retryConsumed
        then Choose(h, v, ProviderRetry, c.work.item, None, {c.job})
        else Plan([Save(h.(state := Backpressure), {})], Report(IsBackpressured, ProviderDown))
      case Terminal(basis) =>
        var h := ItemExcluded(g, c.work.item, basis);
        Prefixed([Save(h, {c.job})], Choose(h, v, Initial, "", basis, {c.job}))
      case Unclear => Plan([Save(Block(g), {})], Report(IsBlocked, AmbiguousAttempt))
  }

  // ---- the whole reconcile ----

  /** Why capacity or backpressure stops this reconcile, if it does. */
  function Occupancy(v: View): Option<Report> {
    if v.queued + v.awaiting >= v.policy.queueCap then Some(Report(IsBackpressured, QueueFull))
    else if v.running >= 1 then Some(Report(IsRunning, CapacityRunning))
    else if v.queued + v.awaiting >= 1 then Some(Report(IsQueued, CapacityQueued))
    else if exists repository :: repository in v.reviews && v.reviews[repository] >= v.policy.reviewCap
    then Some(Report(IsBackpressured, ReviewsFull))
    else None
  }

  function Advance(g: Generation, v: View): Plan {
    match RecoverPrepared(g, v.replayCheck, v.sightings)
    case Done(writes, report) => Plan(writes, report)
    case Continue(writes, h) =>
      if h.prepared.Some? then Prefixed(writes, Replay(h, h.prepared.value, v.submit)) else Prefixed(writes, Proceed(h, v))
  }

  function AfterRecovery(g: Generation, v: View): Plan {
    match RecoverUnrecorded(g, v.sightings)
    case Done(writes, report) => Plan(writes, report)
    case Continue(writes, h) =>
      if Occupancy(v).Some? then Plan(writes, Occupancy(v).value) else Prefixed(writes, Advance(h, v))
  }

  function WithGeneration(g: Generation, v: View): Plan {
    match RecoverPrepared(g, v.recoverCheck, v.sightings)
    case Done(writes, report) => Plan(writes, report)
    case Continue(writes, h) => Prefixed(writes, AfterRecovery(h, v))
  }

  function Reconcile(file: Option<Generation>, v: View): Plan {
    if !v.policy.enabled || v.policy.desired == 0 then
      Plan(if file.Some? && file.value.state != Paused then [Save(file.value.(state := Paused), {})] else [],
           Report(IsPaused, FounderPaused))
    else if v.policy.desired > 1 then Plan([], Report(IsError, CapacityAboveOne))
    else if !v.healthy then Plan([], Report(IsBlocked, Unhealthy))
    else
      match file
      case Some(g) => WithGeneration(g, v)
      case None => Plan([], if Occupancy(v).Some? then Occupancy(v).value else Report(IsBlocked, NoGeneration))
  }
}

/** The reducer from producer heads to an attempt snapshot, and why a terminal verdict is permanent. */
module LifecycleReducer {
  import opened Outcomes
  import opened Collections
  import opened LifecycleEvidence
  import opened RevisionWalk
  import opened Text

  datatype Phase =
    | PreparedPhase | SubmittedPhase | HostAwaitingImport | HostPending | HostRunning | ExecutionArchived
    | ResultRelayed | ValidationRecorded | RevisionRecorded | ReviewRecorded | BlockedPhase

  datatype Outcome = NotStarted | RunningNow | ExecutionDone | ExecutionFailure | ExecutionInterrupted

  datatype Terminality = StillInFlight | BlockedAttempt | TerminalAttempt

  datatype Retry = RetryNotApplicable | OperatorRequired

  datatype Integrity =
    | Complete | MissingEvidence | ConflictingEvidence | BlockedEvidence | NotApplicableEvidence

  datatype RefillAction = BlockFailClosed | ExcludeAndSelectNext

  datatype Snapshot = Snapshot(
    identity: Identity, phase: Phase, outcome: Outcome, validation: Option<Validation>, revision: Option<Revision>,
    review: Option<Review>, attemptTerminal: bool, terminality: Terminality, itemTerminal: bool,
    disposition: Disposition, retry: Retry, integrity: Integrity, action: RefillAction, evidence: map<Kind, Head>)

  /** The heads of one attempt, by stream. */
  function HeadsOf(s: Store, id: Identity): map<Kind, Head> {
    map stream | stream in s.heads && stream.identity == id :: stream.kind := s.heads[stream]
  }

  function Base(id: Identity, heads: map<Kind, Head>): Snapshot {
    Snapshot(id, PreparedPhase, NotStarted, None, None, None, false, StillInFlight, false, InFlight,
             RetryNotApplicable, Complete, BlockFailClosed, heads)
  }

  function Blocked(base: Snapshot, integrity: Integrity, why: Disposition): Snapshot {
    base.(phase := BlockedPhase, integrity := integrity,
          terminality := if base.attemptTerminal then TerminalAttempt else BlockedAttempt,
          itemTerminal := false, disposition := why, action := BlockFailClosed)
  }

  function TerminalItem(base: Snapshot, disposition: Disposition, reason: Option<Reason>): Snapshot {
    if reason.None? || DispositionOf(reason.value) != disposition
    then Blocked(base, ConflictingEvidence, UnknownTerminalReason)
    else base.(attemptTerminal := true, terminality := TerminalAttempt, itemTerminal := true, disposition := disposition,
               retry := RetryNotApplicable, action := ExcludeAndSelectNext)
  }

  function PayloadIn(heads: map<Kind, Head>, kind: Kind): Option<Payload> {
    if kind in heads then Some(heads[kind].id.payload) else None
  }

  /** A merge proof for a failed execution: a completion report, or the attempt's own merged review. */
  function MergedReason(review: Option<Payload>, proof: bool): Option<Reason> {
    if proof then Some(MergedVerifiedV1)
    else
      match review
      case Some(ReviewPayload(Merged, Some(reason), _, _, _, _, _, _, _)) =>
        if DispositionOf(reason) == SuccessMerged then Some(reason) else None
      case _ => None
  }

  /** The verdict on one attempt; `proof` is a durable completion report, `drafted` a drafted descendant's reason. */
  function ReduceHeads(id: Identity, heads: map<Kind, Head>, proof: bool, drafted: Option<Reason>): Snapshot {
    var base := Base(id, heads);
    if PayloadIn(heads, DispatchPrepared).None? then Blocked(base, MissingEvidence, EvidenceMissing)
    else if PayloadIn(heads, DispatchSubmitted).None? then base
    else
      match PayloadIn(heads, HostExecution)
      case None => base.(phase := HostAwaitingImport)
      case Some(HostPayload(execution, _, _)) =>
        (match execution
         case Imported | Pending => base.(phase := HostPending)
         case Running => base.(phase := HostRunning, outcome := RunningNow)
         case Failed | Interrupted =>
           var ended := base.(phase := ExecutionArchived,
                              outcome := if execution.Failed? then ExecutionFailure else ExecutionInterrupted,
                              attemptTerminal := true, terminality := TerminalAttempt, retry := OperatorRequired);
           var merged := MergedReason(PayloadIn(heads, PublicationReview), proof);
           if merged.Some? then TerminalItem(ended.(phase := ReviewRecorded, review := Some(Merged)), SuccessMerged, merged)
           else Blocked(ended, Complete, ExecutionFailed)
         case Completed => ReduceCompleted(base.(phase := ExecutionArchived, outcome := ExecutionDone), heads, drafted))
      case Some(_) => Blocked(base, ConflictingEvidence, EvidenceConflicting)
  }

  function ReduceCompleted(base: Snapshot, heads: map<Kind, Head>, drafted: Option<Reason>): Snapshot {
    match PayloadIn(heads, RelayResult)
    case Some(RelayPayload(RelayDone, _, _, _, _)) =>
      (match PayloadIn(heads, GateValidation)
       case Some(GatePayload(validation, _, _, _, _)) =>
         var gated := base.(phase := ValidationRecorded, validation := Some(validation));
         (match validation
          case ValidationMissing => Blocked(gated, MissingEvidence, ValidationIsBlocked)
          case ValidationConflict => Blocked(gated, ConflictingEvidence, ValidationIsBlocked)
          case ValidationBlocked => Blocked(gated, BlockedEvidence, ValidationIsBlocked)
          case ValidationFailed => ReduceRejected(gated, PayloadIn(heads, RevisionDisposition), drafted)
          case Passed => ReducePassed(gated, PayloadIn(heads, RevisionDisposition), PayloadIn(heads, PublicationReview)))
       case _ => Blocked(base.(phase := ResultRelayed), MissingEvidence, EvidenceMissing))
    case _ => Blocked(base, MissingEvidence, EvidenceMissing)
  }

  /** The candidate failed its gate: its fate is the revision's. */
  function ReduceRejected(gated: Snapshot, revision: Option<Payload>, drafted: Option<Reason>): Snapshot {
    match revision
    case Some(RevisionPayload(disposition, _, _, _, reason)) =>
      var revised := gated.(phase := RevisionRecorded, revision := Some(disposition));
      (match disposition
       case Queued =>
         if drafted.Some?
         then TerminalItem(revised.(phase := ReviewRecorded, review := Some(Drafted)), SuccessDrafted, drafted)
         else revised
       case Exhausted => TerminalItem(revised, RevisionExhausted, reason)
       case RevisionBlocked => Blocked(revised, BlockedEvidence, RevisionIsBlocked)
       case RevisionMissing => Blocked(revised, MissingEvidence, RevisionIsBlocked)
       case RevisionConflict => Blocked(revised, ConflictingEvidence, RevisionIsBlocked)
       case RevisionNotApplicable => Blocked(revised, NotApplicableEvidence, RevisionIsBlocked))
    case _ => Blocked(gated, MissingEvidence, RevisionIsBlocked)
  }

  /** The candidate passed its gate: its fate is the publication review's. */
  function ReducePassed(gated: Snapshot, revision: Option<Payload>, review: Option<Payload>): Snapshot {
    match revision
    case Some(RevisionPayload(RevisionNotApplicable, _, _, _, _)) =>
      var cleared := gated.(revision := Some(RevisionNotApplicable));
      (match review
       case Some(ReviewPayload(disposition, reason, _, _, _, _, _, _, _)) =>
         var reviewed := cleared.(phase := ReviewRecorded, review := Some(disposition));
         (match disposition
          case AwaitingReview => reviewed
          case Drafted => TerminalItem(reviewed, SuccessDrafted, reason)
          case Merged => TerminalItem(reviewed, SuccessMerged, reason)
          case Rejected => TerminalItem(reviewed, ItemRejected, reason)
          case TerminalNoPublication => TerminalItem(reviewed, NoPublication, reason)
          case ReviewBlocked => Blocked(reviewed, BlockedEvidence, PublicationIsBlocked)
          case ReviewMissing => Blocked(reviewed, MissingEvidence, PublicationIsBlocked)
          case ReviewConflict => Blocked(reviewed, ConflictingEvidence, PublicationIsBlocked)
          case ReviewNotApplicable => Blocked(reviewed, NotApplicableEvidence, PublicationIsBlocked))
       case _ => Blocked(cleared, MissingEvidence, PublicationIsBlocked))
    case _ => Blocked(gated, MissingEvidence, RevisionIsBlocked)
  }

  function ScopeOf(id: Identity): Scope { Scope(id.generation, id.workItem) }

  /** The drafted reason reachable from the attempt's own queued revision, if any. */
  function DraftedFor(s: Store, id: Identity): Option<Reason> {
    match PayloadIn(HeadsOf(s, id), RevisionDisposition)
    case Some(RevisionPayload(Queued, descendant, _, _, _)) => DescendantReason(s, ScopeOf(id), descendant)
    case _ => None
  }

  /** The snapshot of one attempt from the evidence directories and the completion reports. */
  function Reduce(s: Store, id: Identity, proof: bool): Snapshot {
    ReduceHeads(id, HeadsOf(s, id), proof, DraftedFor(s, id))
  }

  // ---- what the verdict rests on ----

  /** Excluded exactly when terminal, and terminal only with an accepted terminal disposition. */
  predicate Decided(snapshot: Snapshot) {
    && (snapshot.action.ExcludeAndSelectNext? <==> snapshot.itemTerminal)
    && (snapshot.itemTerminal ==>
          && snapshot.attemptTerminal && snapshot.terminality.TerminalAttempt?
          && snapshot.disposition in {SuccessDrafted, SuccessMerged, ItemRejected, NoPublication, RevisionExhausted})
  }

  lemma CompletedIsDecided(base: Snapshot, heads: map<Kind, Head>, drafted: Option<Reason>)
    requires Decided(base)
    ensures Decided(ReduceCompleted(base, heads, drafted))
  {
    var gate := PayloadIn(heads, GateValidation);
    if gate.Some? && gate.value.GatePayload? {
      var gated := base.(phase := ValidationRecorded, validation := Some(gate.value.validation));
      RejectedIsDecided(gated, PayloadIn(heads, RevisionDisposition), drafted);
      PassedIsDecided(gated, PayloadIn(heads, RevisionDisposition), PayloadIn(heads, PublicationReview));
      hide ReduceRejected, ReducePassed;
    }
  }

  lemma RejectedIsDecided(gated: Snapshot, revision: Option<Payload>, drafted: Option<Reason>)
    requires Decided(gated)
    ensures Decided(ReduceRejected(gated, revision, drafted))
  {}

  lemma PassedIsDecided(gated: Snapshot, revision: Option<Payload>, review: Option<Payload>)
    requires Decided(gated)
    ensures Decided(ReducePassed(gated, revision, review))
  {}

  /** An item is excluded exactly when it is terminal; every other verdict fails closed. */
  lemma ActionFollowsTerminality(id: Identity, heads: map<Kind, Head>, proof: bool, drafted: Option<Reason>)
    ensures Decided(ReduceHeads(id, heads, proof, drafted))
  {
    CompletedIsDecided(Base(id, heads).(phase := ExecutionArchived, outcome := ExecutionDone), heads, drafted);
    hide ReduceCompleted;
  }

  predicate Closed(heads: map<Kind, Head>, kind: Kind) {
    kind in heads && !heads[kind].closed.Open?
  }

  ghost predicate SoundHeads(id: Identity, heads: map<Kind, Head>) {
    forall kind :: kind in heads ==>
      && KindOf(heads[kind].id.payload) == kind && heads[kind].closed == heads[kind].id.closed
      && ValidPayload(heads[kind].id.payload, id, heads[kind].sha.source, heads[kind].closed)
  }

  lemma HeadsOfAreSound(s: Store, id: Identity)
    requires Sound(s)
    ensures SoundHeads(id, HeadsOf(s, id))
  {
    forall kind | kind in HeadsOf(s, id)
      ensures
        var head := HeadsOf(s, id)[kind];
        KindOf(head.id.payload) == kind && head.closed == head.id.closed && ValidPayload(head.id.payload, id, head.sha.source, head.closed)
    {
      assert HeadSound(s, Stream(id, kind));
    }
  }

  /** The streams a verdict was read from. */
  function StreamsRead(heads: map<Kind, Head>): set<Kind> {
    var host := PayloadIn(heads, HostExecution);
    var dispatch := {DispatchPrepared, DispatchSubmitted, HostExecution};
    if host.Some? && host.value.HostPayload? && host.value.execution.Completed? then
      var gate := PayloadIn(heads, GateValidation);
      dispatch + {RelayResult, GateValidation, RevisionDisposition}
      + (if gate.Some? && gate.value.GatePayload? && gate.value.validation.Passed? then {PublicationReview} else {})
    else dispatch + {PublicationReview}
  }

  /** Payloads that end their stream: all but an execution under way and an awaited review. */
  predicate EndsStream(p: Payload) {
    match p
    case HostPayload(execution, _, _) => !(execution.Imported? || execution.Pending? || execution.Running?)
    case ReviewPayload(review, _, _, _, _, _, _, _, _) => !review.AwaitingReview?
    case _ => true
  }

  lemma ValidPayloadCloses(p: Payload, id: Identity, source: Source, closed: ClosedStatus)
    requires ValidPayload(p, id, source, closed)
    ensures EndsStream(p) <==> !closed.Open?
  {}

  /** What a terminal verdict says about the payloads it was read from. */
  lemma TerminalPayloadsEnd(id: Identity, heads: map<Kind, Head>)
    requires ReduceHeads(id, heads, false, None).itemTerminal
    requires forall kind :: kind in heads ==> KindOf(heads[kind].id.payload) == kind
    ensures forall kind :: kind in StreamsRead(heads) ==> kind in heads && EndsStream(heads[kind].id.payload)
  {
    TerminalIsExecuted(id, heads);
    hide ReduceHeads;
    if heads[HostExecution].id.payload.execution.Completed? {
      CompletedPayloadsEnd(Base(id, heads).(phase := ExecutionArchived, outcome := ExecutionDone), heads);
    }
    hide ReduceCompleted;
  }

  /** A terminal attempt was dispatched and executed, and what it ended with decides which streams were read. */
  lemma TerminalIsExecuted(id: Identity, heads: map<Kind, Head>)
    requires ReduceHeads(id, heads, false, None).itemTerminal
    requires forall kind :: kind in heads ==> KindOf(heads[kind].id.payload) == kind
    ensures DispatchPrepared in heads && DispatchSubmitted in heads && HostExecution in heads
    ensures EndsStream(heads[HostExecution].id.payload)
    ensures
      if heads[HostExecution].id.payload.execution.Completed?
      then ReduceCompleted(Base(id, heads).(phase := ExecutionArchived, outcome := ExecutionDone), heads, None).itemTerminal
      else PublicationReview in heads && EndsStream(heads[PublicationReview].id.payload)
  {
    hide ReduceCompleted;
  }

  lemma CompletedPayloadsEnd(base: Snapshot, heads: map<Kind, Head>)
    requires !base.itemTerminal && ReduceCompleted(base, heads, None).itemTerminal
    requires forall kind :: kind in heads ==> KindOf(heads[kind].id.payload) == kind
    ensures RelayResult in heads && GateValidation in heads && RevisionDisposition in heads
    ensures
      heads[GateValidation].id.payload.validation.Passed? ==>
        PublicationReview in heads && EndsStream(heads[PublicationReview].id.payload)
  {}

  /** Every stream on the way to an own-evidence terminal verdict is closed. */
  lemma TerminalStreamsAreClosed(id: Identity, heads: map<Kind, Head>)
    requires SoundHeads(id, heads) && ReduceHeads(id, heads, false, None).itemTerminal
    ensures forall kind :: kind in StreamsRead(heads) ==> Closed(heads, kind)
  {
    hide ReduceHeads, StreamsRead, ValidPayload;
    TerminalPayloadsEnd(id, heads);
    forall kind | kind in StreamsRead(heads) ensures Closed(heads, kind) {
      ValidPayloadCloses(heads[kind].id.payload, id, heads[kind].sha.source, heads[kind].closed);
    }
  }

  predicate AgreeOn(kinds: set<Kind>, heads: map<Kind, Head>, later: map<Kind, Head>) {
    forall kind :: kind in kinds ==> kind in heads && kind in later && later[kind] == heads[kind]
  }

  predicate SameVerdict(a: Snapshot, b: Snapshot) {
    a.itemTerminal == b.itemTerminal && a.disposition == b.disposition && a.action == b.action
  }

  lemma ArchivedSameVerdict(id: Identity, heads: map<Kind, Head>, later: map<Kind, Head>, proof: bool, drafted: Option<Reason>)
    requires SoundHeads(id, heads) && ReduceHeads(id, heads, false, None).itemTerminal
    requires AgreeOn(StreamsRead(heads), heads, later) && PayloadIn(heads, HostExecution) != None
    requires heads[HostExecution].id.payload.HostPayload? && heads[HostExecution].id.payload.execution.Completed?
    ensures SameVerdict(ReduceHeads(id, later, proof, drafted), ReduceHeads(id, heads, false, None))
  {
    hide ValidPayload, Closed, ReduceCompleted, SameVerdict;
    SoundKinds(id, heads);
    hide SoundHeads;
    TerminalPayloadsEnd(id, heads);
    assert DispatchPrepared in later && DispatchSubmitted in later && HostExecution in later;
    CompletedSameVerdict(Base(id, heads).(phase := ExecutionArchived, outcome := ExecutionDone),
                         Base(id, later).(phase := ExecutionArchived, outcome := ExecutionDone), heads, later, drafted);
  }

  lemma EndedSameVerdict(id: Identity, heads: map<Kind, Head>, later: map<Kind, Head>, proof: bool, drafted: Option<Reason>)
    requires SoundHeads(id, heads) && ReduceHeads(id, heads, false, None).itemTerminal
    requires AgreeOn(StreamsRead(heads), heads, later) && PayloadIn(heads, HostExecution) != None
    requires heads[HostExecution].id.payload.HostPayload? && !heads[HostExecution].id.payload.execution.Completed?
    ensures SameVerdict(ReduceHeads(id, later, proof, drafted), ReduceHeads(id, heads, false, None))
  {
    hide ValidPayload, Closed, ReduceCompleted;
    SoundKinds(id, heads);
    hide SoundHeads;
    TerminalPayloadsEnd(id, heads);
    assert DispatchPrepared in later && DispatchSubmitted in later && HostExecution in later;
  }

  /** The verdict depends only on the streams it was read from, whatever proofs or descendants turn up. */
  lemma SameStreamsSameVerdict(id: Identity, heads: map<Kind, Head>, later: map<Kind, Head>, proof: bool, drafted: Option<Reason>)
    requires SoundHeads(id, heads) && ReduceHeads(id, heads, false, None).itemTerminal
    requires AgreeOn(StreamsRead(heads), heads, later)
    ensures SameVerdict(ReduceHeads(id, later, proof, drafted), ReduceHeads(id, heads, false, None))
  {
    TerminalPayloadsEnd(id, heads);
    hide ReduceHeads, SoundHeads, SameVerdict, AgreeOn;
    if heads[HostExecution].id.payload.execution.Completed? {
      ArchivedSameVerdict(id, heads, later, proof, drafted);
    } else {
      EndedSameVerdict(id, heads, later, proof, drafted);
    }
  }

  lemma CompletedSameVerdict(base: Snapshot, base': Snapshot, heads: map<Kind, Head>, later: map<Kind, Head>, drafted: Option<Reason>)
    requires !base.itemTerminal && ReduceCompleted(base, heads, None).itemTerminal
    requires base' == base.(evidence := later)
    requires forall kind :: kind in heads ==> KindOf(heads[kind].id.payload) == kind
    requires forall kind :: kind in {RelayResult, GateValidation, RevisionDisposition} && kind in heads ==> kind in later && later[kind] == heads[kind]
    requires
      GateValidation in heads && heads[GateValidation].id.payload.validation.Passed? && PublicationReview in heads ==>
        PublicationReview in later && later[PublicationReview] == heads[PublicationReview]
    ensures SameVerdict(ReduceCompleted(base', later, drafted), ReduceCompleted(base, heads, None))
  {
    CompletedPayloadsEnd(base, heads);
    var gate := heads[GateValidation].id.payload;
    var gated := base.(phase := ValidationRecorded, validation := Some(gate.validation));
    var gated' := base'.(phase := ValidationRecorded, validation := Some(gate.validation));
    hide ReducePassed, ReduceRejected, SameVerdict;
    if gate.validation.Passed? {
      PassedSameVerdict(gated, gated', PayloadIn(heads, RevisionDisposition), PayloadIn(heads, PublicationReview));
    } else {
      RejectedSameVerdict(gated, gated', PayloadIn(heads, RevisionDisposition), drafted);
    }
  }

  /** The verdict on a passed candidate does not look at the heads again. */
  lemma PassedSameVerdict(gated: Snapshot, gated': Snapshot, revision: Option<Payload>, review: Option<Payload>)
    requires gated' == gated.(evidence := gated'.evidence) && ReducePassed(gated, revision, review).itemTerminal && !gated.itemTerminal
    ensures SameVerdict(ReducePassed(gated', revision, review), ReducePassed(gated, revision, review))
  {
    var a, b := ReducePassed(gated', revision, review), ReducePassed(gated, revision, review);
    assert a == b.(evidence := gated'.evidence);
  }

  /** A rejected candidate that is terminal without a draft exhausted its revisions, and no draft changes that. */
  lemma RejectedSameVerdict(gated: Snapshot, gated': Snapshot, revision: Option<Payload>, drafted: Option<Reason>)
    requires gated' == gated.(evidence := gated'.evidence) && !gated.itemTerminal && ReduceRejected(gated, revision, None).itemTerminal
    ensures SameVerdict(ReduceRejected(gated', revision, drafted), ReduceRejected(gated, revision, None))
  {}

  lemma ClosedHeadsPersist(s: Store, es: seq<Emission>, id: Identity)
    ensures forall kind :: Closed(HeadsOf(s, id), kind) ==>
              kind in HeadsOf(Run(s, es), id) && HeadsOf(Run(s, es), id)[kind] == HeadsOf(s, id)[kind]
  {
    RunsOnlyExtend(s, es);
    forall kind | Closed(HeadsOf(s, id), kind)
      ensures kind in HeadsOf(Run(s, es), id) && HeadsOf(Run(s, es), id)[kind] == HeadsOf(s, id)[kind]
    {
      assert Stream(id, kind) in s.heads;
    }
  }

  /**
   Terminality from an attempt's own streams is permanent: whatever is emitted later, by whom and
   with whatever crashes, and whatever proofs appear, the item keeps its disposition and action.
   */
  lemma OwnTerminalityIsPermanent(s: Store, es: seq<Emission>, id: Identity, proof: bool)
    requires Sound(s) && ReduceHeads(id, HeadsOf(s, id), false, None).itemTerminal
    ensures SameVerdict(Reduce(Run(s, es), id, proof), ReduceHeads(id, HeadsOf(s, id), false, None))
  {
    var t := Run(s, es);
    assert Reduce(t, id, proof) == ReduceHeads(id, HeadsOf(t, id), proof, DraftedFor(t, id));
    hide *;
    HeadsOfAreSound(s, id);
    TerminalStreamsAreClosed(id, HeadsOf(s, id));
    ClosedHeadsPersist(s, es, id);
    ClosedAgree(StreamsRead(HeadsOf(s, id)), HeadsOf(s, id), HeadsOf(t, id));
    SameStreamsSameVerdict(id, HeadsOf(s, id), HeadsOf(t, id), proof, DraftedFor(t, id));
  }

  lemma ClosedAgree(kinds: set<Kind>, heads: map<Kind, Head>, later: map<Kind, Head>)
    requires forall kind :: kind in kinds ==> Closed(heads, kind)
    requires forall kind :: Closed(heads, kind) ==> kind in later && later[kind] == heads[kind]
    ensures AgreeOn(kinds, heads, later)
  {}

  // ---- terminality through a drafted descendant or a completion report ----

  predicate SameJob(a: Identity, b: Identity) {
    a.job == b.job && a.generation == b.generation && a.workItem == b.workItem
  }

  /** No two attempts of one generation and work item share a job: enough, but far more than is needed. */
  ghost predicate OneAttemptPerJob(s: Store) {
    forall a, b | a in s.heads && b in s.heads && a.kind == b.kind && SameJob(a.identity, b.identity) :: a == b
  }

  /** Exactly one head of this kind is found for the job. */
  predicate Lone(s: Store, scope: Scope, job: string, kind: Kind) { |HeadsForJob(s, scope, job, kind)| == 1 }

  /**
   Along the queued links of `s` up to its first drafted job, no second revision or review of those very jobs
   has turned up in `t`.
   */
  ghost predicate ChainStaysLone(s: Store, t: Store, scope: Scope, start: string) {
    forall n: nat | FirstDrafted(s, scope, start, n, DraftedV1) ::
      && (forall k: nat | k < n :: Lone(t, scope, LinkedJob(s, scope, start, k).value, RevisionDisposition))
      && Lone(t, scope, LinkedJob(s, scope, start, n).value, PublicationReview)
  }

  /** A payload read for a job from a closed head is read again after any run that opens no second stream for it. */
  lemma ClosedPayloadPersists(s: Store, es: seq<Emission>, scope: Scope, job: string, kind: Kind)
    requires Sound(s) && Lone(Run(s, es), scope, job, kind)
    requires PayloadForJob(s, scope, job, kind).Some? && EndsStream(PayloadForJob(s, scope, job, kind).value)
    ensures PayloadForJob(Run(s, es), scope, job, kind) == PayloadForJob(s, scope, job, kind)
  {
    var t := Run(s, es);
    var matches := HeadsForJob(s, scope, job, kind);
    assert |matches| == 1;
    var stream :| stream in matches;
    forall other | other in matches ensures other == stream {
      SingletonIsUnique(matches, stream, other);
    }
    assert HeadSound(s, stream);
    ValidPayloadCloses(s.heads[stream].id.payload, stream.identity, s.heads[stream].sha.source, s.heads[stream].closed);
    RunsOnlyExtend(s, es);
    assert stream in HeadsForJob(t, scope, job, kind);
    forall other | other in HeadsForJob(t, scope, job, kind) ensures other == stream {
      SingletonIsUnique(HeadsForJob(t, scope, job, kind), stream, other);
    }
  }

  lemma QueuedPersists(s: Store, es: seq<Emission>, scope: Scope, job: string)
    requires Sound(s) && Lone(Run(s, es), scope, job, RevisionDisposition) && QueuedDescendant(s, scope, job).Some?
    ensures QueuedDescendant(Run(s, es), scope, job) == QueuedDescendant(s, scope, job)
  {
    ClosedPayloadPersists(s, es, scope, job, RevisionDisposition);
  }

  /** The first `n` links of the chain in `s` are found again in `t`. */
  ghost predicate LinksStay(s: Store, t: Store, scope: Scope, start: string, n: nat) {
    forall k: nat | k < n ::
      LinkedJob(s, scope, start, k).Some?
      && QueuedDescendant(t, scope, LinkedJob(s, scope, start, k).value) == QueuedDescendant(s, scope, LinkedJob(s, scope, start, k).value)
  }

  lemma {:induction false} LinkedAgain(s: Store, t: Store, scope: Scope, start: string, n: nat)
    requires LinksStay(s, t, scope, start, n)
    ensures LinkedJob(t, scope, start, n) == LinkedJob(s, scope, start, n)
    decreases n
  {
    assert LinkedJob(t, scope, start, 0) == LinkedJob(s, scope, start, 0);
    hide QueuedDescendant, LinkedJob;
    if n > 0 {
      LinkedStep(s, scope, start, n);
      LinkedStep(t, scope, start, n);
      LinkedAgain(s, t, scope, start, n - 1);
      assert LinkedJob(s, scope, start, n - 1).Some?;
    }
  }

  /** Links that exist rest on closed heads, so they stay where the jobs stay lone. */
  lemma LinksPersist(s: Store, es: seq<Emission>, scope: Scope, start: string, n: nat)
    requires Sound(s)
    requires forall k: nat | k < n :: LinkedJob(s, scope, start, k).Some? && QueuedDescendant(s, scope, LinkedJob(s, scope, start, k).value).Some?
    requires forall k: nat | k < n :: Lone(Run(s, es), scope, LinkedJob(s, scope, start, k).value, RevisionDisposition)
    ensures LinksStay(s, Run(s, es), scope, start, n)
  {
    hide Sound, QueuedDescendant, Lone, Run, LinkedJob;
    forall k: nat | k < n
      ensures LinkedJob(s, scope, start, k).Some?
      ensures QueuedDescendant(Run(s, es), scope, LinkedJob(s, scope, start, k).value) == QueuedDescendant(s, scope, LinkedJob(s, scope, start, k).value)
    {
      QueuedPersists(s, es, scope, LinkedJob(s, scope, start, k).value);
    }
  }

  lemma LinksAreQueued(s: Store, scope: Scope, start: string, n: nat, reason: Reason)
    requires FirstDrafted(s, scope, start, n, reason)
    ensures forall k: nat | k < n ::
              LinkedJob(s, scope, start, k).Some? && QueuedDescendant(s, scope, LinkedJob(s, scope, start, k).value).Some?
  {
    hide QueuedDescendant, DraftedReason;
    forall k: nat | k < n
      ensures LinkedJob(s, scope, start, k).Some? && QueuedDescendant(s, scope, LinkedJob(s, scope, start, k).value).Some?
    {
      assert LinkedJob(s, scope, start, k + 1).Some?;
    }
  }

  lemma DraftedIsDraftedV1(s: Store, scope: Scope, job: string)
    requires Sound(s) && DraftedReason(s, scope, job).Some?
    ensures DraftedReason(s, scope, job) == Some(DraftedV1)
  {
    var matches := HeadsForJob(s, scope, job, PublicationReview);
    var stream :| stream in matches;
    forall other | other in matches ensures other == stream {
      SingletonIsUnique(matches, stream, other);
    }
    assert HeadSound(s, stream);
  }

  /** A drafted descendant stays a drafted descendant as long as its chain is left alone. */
  lemma DraftedDescendantPersists(s: Store, es: seq<Emission>, scope: Scope, start: string)
    requires Sound(s) && ChainStaysLone(s, Run(s, es), scope, start) && Walk(s, scope, start, {}).Some?
    ensures Walk(s, scope, start, {}) == Some(DraftedV1) == Walk(Run(s, es), scope, start, {})
  {
    hide Sound, Lone, DraftedReason, QueuedDescendant;
    var t := Run(s, es);
    RunsAreSound(s, es);
    var n := WalkFindsFirst(s, scope, start, {});
    var job := LinkedJob(s, scope, start, n).value;
    DraftedIsDraftedV1(s, scope, job);
    assert FirstDrafted(s, scope, start, n, DraftedV1);
    LinksAreQueued(s, scope, start, n, DraftedV1);
    LinksPersist(s, es, scope, start, n);
    LinkedAgain(s, t, scope, start, n);
    DraftPersists(s, es, scope, job);
    assert DraftedAt(t, scope, start, n);
    WalkDecidesReachability(t, scope, start);
    var m := WalkFindsFirst(t, scope, start, {});
    DraftedIsDraftedV1(t, scope, LinkedJob(t, scope, start, m).value);
  }

  lemma DraftPersists(s: Store, es: seq<Emission>, scope: Scope, job: string)
    requires Sound(s) && DraftedReason(s, scope, job).Some? && Lone(Run(s, es), scope, job, PublicationReview)
    ensures DraftedReason(Run(s, es), scope, job).Some?
  {
    ClosedPayloadPersists(s, es, scope, job, PublicationReview);
  }

  /** The job an attempt's own queued revision hands over to. */
  function StartOf(heads: map<Kind, Head>): string {
    match PayloadIn(heads, RevisionDisposition)
    case Some(RevisionPayload(Queued, Some(descendant), _, _, _)) => Strip(descendant)
    case _ => ""
  }

  /**
   Any terminal verdict is permanent as long as no second attempt turns up at the very jobs a drafted
   descendant was found through, and completion reports are not withdrawn.
   */
  lemma TerminalityIsPermanent(s: Store, es: seq<Emission>, id: Identity, proof: bool, proof': bool)
    requires Sound(s) && (proof ==> proof') && Reduce(s, id, proof).itemTerminal
    requires QueuedShape(HeadsOf(s, id)) ==> ChainStaysLone(s, Run(s, es), ScopeOf(id), StartOf(HeadsOf(s, id)))
    ensures SameVerdict(Reduce(Run(s, es), id, proof'), Reduce(s, id, proof))
  {
    hide ReduceHeads, DraftedFor, ChainStaysLone, HeadsOf, SoundHeads;
    var heads := HeadsOf(s, id);
    HeadsOfAreSound(s, id);
    if ReduceHeads(id, heads, false, None).itemTerminal {
      OwnTerminalityIsPermanent(s, es, id, proof');
      OwnTerminalityIsPermanent(s, [], id, proof);
    } else {
      SoundKinds(id, heads);
      ExternalTerminality(id, heads, proof, DraftedFor(s, id));
      if heads[HostExecution].id.payload.execution.Completed? {
        QueuedIsPermanent(s, es, id, proof, proof');
      } else {
        FailedIsPermanent(s, es, id, proof, proof');
      }
    }
  }

  lemma SoundKinds(id: Identity, heads: map<Kind, Head>)
    requires SoundHeads(id, heads)
    ensures forall kind :: kind in heads ==> KindOf(heads[kind].id.payload) == kind
  {}

  lemma QueuedIsPermanent(s: Store, es: seq<Emission>, id: Identity, proof: bool, proof': bool)
    requires Sound(s) && QueuedShape(HeadsOf(s, id)) && DraftedFor(s, id).Some?
    requires ChainStaysLone(s, Run(s, es), ScopeOf(id), StartOf(HeadsOf(s, id)))
    ensures SameVerdict(Reduce(Run(s, es), id, proof'), Reduce(s, id, proof))
  {
    hide ReduceHeads, ChainStaysLone, Walk, Sound, SoundHeads;
    var heads, later := HeadsOf(s, id), HeadsOf(Run(s, es), id);
    HeadsOfAreSound(s, id);
    EndedHeadsAreClosed(id, heads);
    ClosedHeadsPersist(s, es, id);
    assert forall kind :: kind in {DispatchPrepared, DispatchSubmitted, HostExecution, RelayResult, GateValidation, RevisionDisposition} ==>
      Closed(heads, kind) by { QueuedHeadsEnd(id, heads); }
    hide HeadsOf;
    DraftedDescendantPersists(s, es, ScopeOf(id), StartOf(heads));
    QueuedVerdict(id, later, proof', DraftedFor(Run(s, es), id));
    QueuedVerdict(id, heads, proof, DraftedFor(s, id));
  }

  lemma QueuedHeadsEnd(id: Identity, heads: map<Kind, Head>)
    requires SoundHeads(id, heads) && QueuedShape(heads)
    ensures forall kind :: kind in {DispatchPrepared, DispatchSubmitted, HostExecution, RelayResult, GateValidation, RevisionDisposition} ==>
              Closed(heads, kind)
  {
    EndedHeadsAreClosed(id, heads);
    hide ValidPayload;
  }

  lemma FailedIsPermanent(s: Store, es: seq<Emission>, id: Identity, proof: bool, proof': bool)
    requires Sound(s) && proof && proof'
    requires FailedShape(HeadsOf(s, id))
    ensures SameVerdict(Reduce(Run(s, es), id, proof'), Reduce(s, id, proof))
  {
    hide ReduceHeads, Sound;
    var heads, later := HeadsOf(s, id), HeadsOf(Run(s, es), id);
    HeadsOfAreSound(s, id);
    EndedHeadsAreClosed(id, heads);
    ClosedHeadsPersist(s, es, id);
    hide ValidPayload, HeadsOf;
    FailedVerdict(id, later, DraftedFor(Run(s, es), id));
    FailedVerdict(id, heads, DraftedFor(s, id));
  }

  lemma EndedHeadsAreClosed(id: Identity, heads: map<Kind, Head>)
    requires SoundHeads(id, heads)
    ensures forall kind :: kind in heads && EndsStream(heads[kind].id.payload) ==> Closed(heads, kind)
  {
    hide ValidPayload;
    forall kind | kind in heads && EndsStream(heads[kind].id.payload) ensures Closed(heads, kind) {
      ValidPayloadCloses(heads[kind].id.payload, id, heads[kind].sha.source, heads[kind].closed);
    }
  }

  /** A verdict that is terminal only thanks to outside evidence has one of two shapes. */
  lemma ExternalTerminality(id: Identity, heads: map<Kind, Head>, proof: bool, drafted: Option<Reason>)
    requires forall kind :: kind in heads ==> KindOf(heads[kind].id.payload) == kind
    requires ReduceHeads(id, heads, proof, drafted).itemTerminal && !ReduceHeads(id, heads, false, None).itemTerminal
    ensures DispatchPrepared in heads && DispatchSubmitted in heads && HostExecution in heads
    ensures
      var host := heads[HostExecution].id.payload;
      if host.execution.Completed? then QueuedShape(heads) && drafted.Some? else FailedShape(heads) && proof
  {
    assert DispatchPrepared in heads && DispatchSubmitted in heads && HostExecution in heads;
    if heads[HostExecution].id.payload.execution.Completed? {
      ExternalCompleted(Base(id, heads).(phase := ExecutionArchived, outcome := ExecutionDone), heads, drafted);
    }
    hide ReduceCompleted;
  }

  lemma ExternalCompleted(base: Snapshot, heads: map<Kind, Head>, drafted: Option<Reason>)
    requires forall kind :: kind in heads ==> KindOf(heads[kind].id.payload) == kind
    requires !base.itemTerminal && ReduceCompleted(base, heads, drafted).itemTerminal && !ReduceCompleted(base, heads, None).itemTerminal
    ensures QueuedAfterGate(heads) && drafted.Some?
  {}

  /** Relayed, rejected by its gate, and queued for revision. */
  predicate QueuedAfterGate(heads: map<Kind, Head>) {
    && RelayResult in heads && GateValidation in heads && RevisionDisposition in heads
    && heads[RelayResult].id.payload.RelayPayload? && heads[RelayResult].id.payload.relayed.RelayDone?
    && heads[GateValidation].id.payload.GatePayload? && heads[GateValidation].id.payload.validation.ValidationFailed?
    && heads[RevisionDisposition].id.payload.RevisionPayload? && heads[RevisionDisposition].id.payload.revision.Queued?
  }

  predicate QueuedShape(heads: map<Kind, Head>) {
    && DispatchPrepared in heads && DispatchSubmitted in heads && HostExecution in heads
    && heads[HostExecution].id.payload.HostPayload? && heads[HostExecution].id.payload.execution.Completed?
    && QueuedAfterGate(heads)
  }

  lemma QueuedVerdict(id: Identity, heads: map<Kind, Head>, proof: bool, drafted: Option<Reason>)
    requires QueuedShape(heads) && drafted == Some(DraftedV1)
    ensures
      var r := ReduceHeads(id, heads, proof, drafted);
      r.itemTerminal && r.disposition == SuccessDrafted && r.action == ExcludeAndSelectNext
  {}

  /** Dispatched, and its execution failed or was interrupted. */
  predicate FailedShape(heads: map<Kind, Head>) {
    && DispatchPrepared in heads && DispatchSubmitted in heads && HostExecution in heads
    && heads[HostExecution].id.payload.HostPayload?
    && (heads[HostExecution].id.payload.execution.Failed? || heads[HostExecution].id.payload.execution.Interrupted?)
  }

  lemma FailedVerdict(id: Identity, heads: map<Kind, Head>, drafted: Option<Reason>)
    requires FailedShape(heads)
    ensures
      var r := ReduceHeads(id, heads, true, drafted);
      r.itemTerminal && r.disposition == SuccessMerged && r.action == ExcludeAndSelectNext
  {}

  lemma QueuedWithoutDraft(id: Identity, heads: map<Kind, Head>, proof: bool)
    requires QueuedShape(heads)
    ensures !ReduceHeads(id, heads, proof, None).itemTerminal
  {}

  /** A second attempt at the same job leaves the walk nothing to find there. */
  lemma DraftHidden(s: Store, e: Emission, scope: Scope, drafted: Stream, job: string)
    requires HeadsForJob(s, scope, job, PublicationReview) == {drafted}
    requires QueuedDescendant(s, scope, job).None?
    requires Emit(s, e).1.Ok? && StreamOf(e) != drafted && InScope(StreamOf(e), scope, job, PublicationReview)
    ensures DraftedReason(Emit(s, e).0, scope, job).None? && QueuedDescendant(Emit(s, e).0, scope, job).None?
  {
    var t := Emit(s, e).0;
    var matches := HeadsForJob(t, scope, job, PublicationReview);
    assert drafted in HeadsForJob(s, scope, job, PublicationReview);
    assert drafted in matches && StreamOf(e) in matches;
    if |matches| == 1 {
      SingletonIsUnique(matches, drafted, StreamOf(e));
    }
    assert HeadsForJob(t, scope, job, RevisionDisposition) == HeadsForJob(s, scope, job, RevisionDisposition);
  }

  lemma LoneDraft(s: Store, scope: Scope, drafted: Stream, job: string)
    requires Sound(s) && HeadsForJob(s, scope, job, PublicationReview) == {drafted}
    requires drafted in s.heads && s.heads[drafted].id.payload.ReviewPayload? && s.heads[drafted].id.payload.review.Drafted?
    ensures DraftedReason(s, scope, job) == Some(DraftedV1)
  {
    assert HeadSound(s, drafted);
  }

  lemma OtherStreamsStay(s: Store, e: Emission, id: Identity)
    ensures forall kind :: kind != KindOf(e.payload) ==>
              (kind in HeadsOf(Emit(s, e).0, id) <==> kind in HeadsOf(s, id))
    ensures forall kind :: kind != KindOf(e.payload) && kind in HeadsOf(s, id) ==>
              HeadsOf(Emit(s, e).0, id)[kind] == HeadsOf(s, id)[kind]
  {}

  lemma QueuedWalk(s: Store, id: Identity, job: string)
    requires QueuedShape(HeadsOf(s, id)) && job != "" && Strip(job) == job
    requires HeadsOf(s, id)[RevisionDisposition].id.payload.descendant == Some(job)
    requires QueuedDescendant(s, ScopeOf(id), job).None?
    ensures DraftedFor(s, id) == DraftedReason(s, ScopeOf(id), job)
  {}

  /**
   Uniqueness is needed: a second attempt that shares the drafted descendant's job hides its draft,
   and an item that was terminal through that draft is terminal no more.
   */
  lemma SharedJobUndoesTerminality(s: Store, e: Emission, id: Identity, drafted: Stream, job: string)
    requires Sound(s) && QueuedShape(HeadsOf(s, id))
    requires HeadsOf(s, id)[RevisionDisposition].id.payload.descendant == Some(job)
    requires job != "" && Strip(job) == job
    requires HeadsForJob(s, ScopeOf(id), job, PublicationReview) == {drafted}
    requires drafted in s.heads && s.heads[drafted].id.payload.ReviewPayload? && s.heads[drafted].id.payload.review.Drafted?
    requires QueuedDescendant(s, ScopeOf(id), job).None?
    requires Emit(s, e).1.Ok? && StreamOf(e) != drafted && InScope(StreamOf(e), ScopeOf(id), job, PublicationReview)
    ensures Reduce(s, id, false).itemTerminal && !Reduce(Emit(s, e).0, id, false).itemTerminal
  {
    hide HeadsOf, ReduceHeads, HeadsForJob, Emit, DraftedReason, QueuedDescendant, DraftedFor, Walk, Sound;
    var t := Emit(s, e).0;
    LoneDraft(s, ScopeOf(id), drafted, job);
    DraftHidden(s, e, ScopeOf(id), drafted, job);
    OtherStreamsStay(s, e, id);
    QueuedWalk(s, id, job);
    QueuedWalk(t, id, job);
    QueuedVerdict(id, HeadsOf(s, id), false, DraftedFor(s, id));
    QueuedWithoutDraft(id, HeadsOf(t, id), false);
  }
}

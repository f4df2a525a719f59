/** What each verdict on an attempt says about its evidence, stream by stream. */
module LifecycleVerdicts {
  import opened Outcomes
  import opened LifecycleEvidence
  import opened LifecycleReducer
  import opened RevisionWalk
  import opened Text
  import opened TerminalityLoss
  import opened LifecycleJournal
  import opened LifecycleRecovery
  import opened CanonicalClassification

  // ---- what the streams say ----

  predicate Dispatched(heads: map<Kind, Head>) { DispatchPrepared in heads && DispatchSubmitted in heads }

  predicate Executed(heads: map<Kind, Head>, execution: Execution) {
    && Dispatched(heads) && HostExecution in heads
    && heads[HostExecution].id.payload.HostPayload? && heads[HostExecution].id.payload.execution == execution
  }

  predicate Broke(heads: map<Kind, Head>) { Executed(heads, Failed) || Executed(heads, Interrupted) }

  /** Executed to the end, and its result relayed. */
  predicate Relays(heads: map<Kind, Head>) {
    && Executed(heads, Completed) && RelayResult in heads
    && heads[RelayResult].id.payload.RelayPayload? && heads[RelayResult].id.payload.relayed.RelayDone?
  }

  predicate Gated(heads: map<Kind, Head>, validation: Validation) {
    && Relays(heads) && GateValidation in heads
    && heads[GateValidation].id.payload.GatePayload? && heads[GateValidation].id.payload.validation == validation
  }

  predicate Revised(heads: map<Kind, Head>, revision: Revision) {
    && RevisionDisposition in heads
    && heads[RevisionDisposition].id.payload.RevisionPayload? && heads[RevisionDisposition].id.payload.revision == revision
  }

  predicate Reviewed(heads: map<Kind, Head>, review: Review) {
    && PublicationReview in heads
    && heads[PublicationReview].id.payload.ReviewPayload? && heads[PublicationReview].id.payload.review == review
  }

  /** The candidate passed its gate and needs no revision: the publication review decides. */
  predicate Publishable(heads: map<Kind, Head>) { Gated(heads, Passed) && Revised(heads, RevisionNotApplicable) }

  // ---- the classes ----

  /** Work on the attempt is going on or still to come. */
  predicate UnderWay(heads: map<Kind, Head>, drafted: bool) {
    && DispatchPrepared in heads
    && (|| DispatchSubmitted !in heads || HostExecution !in heads
        || Executed(heads, Imported) || Executed(heads, Pending) || Executed(heads, Running)
        || (Gated(heads, ValidationFailed) && Revised(heads, Queued) && !drafted)
        || (Publishable(heads) && Reviewed(heads, AwaitingReview)))
  }

  /** Drafted itself, or through a descendant of its queued revision. */
  predicate EndsDrafted(heads: map<Kind, Head>, drafted: bool) {
    || (Publishable(heads) && Reviewed(heads, Drafted))
    || (Gated(heads, ValidationFailed) && Revised(heads, Queued) && drafted)
  }

  /** Merged after its review, or after a failed execution that a completion report or a merged review makes up for. */
  predicate EndsMerged(heads: map<Kind, Head>, proof: bool) {
    || (Publishable(heads) && Reviewed(heads, Merged))
    || (Broke(heads) && (proof || Reviewed(heads, Merged)))
  }

  predicate Ends(heads: map<Kind, Head>, proof: bool, drafted: bool) {
    || EndsDrafted(heads, drafted) || EndsMerged(heads, proof)
    || (Publishable(heads) && (Reviewed(heads, Rejected) || Reviewed(heads, TerminalNoPublication)))
    || (Gated(heads, ValidationFailed) && Revised(heads, Exhausted))
  }

  /** The execution failed, and nothing makes up for it. */
  predicate FailsExecution(heads: map<Kind, Head>, proof: bool) {
    Broke(heads) && !proof && !Reviewed(heads, Merged)
  }

  predicate LacksEvidence(heads: map<Kind, Head>) {
    DispatchPrepared !in heads || (Executed(heads, Completed) && !Relays(heads)) || (Relays(heads) && GateValidation !in heads)
  }

  predicate LacksRevision(heads: map<Kind, Head>) {
    || (Gated(heads, ValidationFailed) && (RevisionDisposition !in heads || Revised(heads, RevisionMissing)))
    || (Gated(heads, Passed) && !Revised(heads, RevisionNotApplicable))
  }

  predicate LacksReview(heads: map<Kind, Head>) {
    Publishable(heads) && (PublicationReview !in heads || Reviewed(heads, ReviewMissing))
  }

  predicate IsMissing(heads: map<Kind, Head>) {
    LacksEvidence(heads) || Gated(heads, ValidationMissing) || LacksRevision(heads) || LacksReview(heads)
  }

  predicate IsBlocked(heads: map<Kind, Head>) {
    || Gated(heads, ValidationBlocked)
    || (Gated(heads, ValidationFailed) && Revised(heads, RevisionBlocked))
    || (Publishable(heads) && Reviewed(heads, ReviewBlocked))
  }

  predicate IsConflicting(heads: map<Kind, Head>) {
    || Gated(heads, ValidationConflict)
    || (Gated(heads, ValidationFailed) && Revised(heads, RevisionConflict))
    || (Publishable(heads) && Reviewed(heads, ReviewConflict))
  }

  predicate IsNotApplicable(heads: map<Kind, Head>) {
    || (Gated(heads, ValidationFailed) && Revised(heads, RevisionNotApplicable))
    || (Publishable(heads) && Reviewed(heads, ReviewNotApplicable))
  }

  // ---- what a snapshot says ----

  /** The item's disposition names the stream that decided it. */
  predicate FitsDisposition(disposition: Disposition, heads: map<Kind, Head>, proof: bool, drafted: bool) {
    match disposition
    case InFlight => UnderWay(heads, drafted)
    case SuccessDrafted => EndsDrafted(heads, drafted)
    case SuccessMerged => EndsMerged(heads, proof)
    case ItemRejected => Publishable(heads) && Reviewed(heads, Rejected)
    case NoPublication => Publishable(heads) && Reviewed(heads, TerminalNoPublication)
    case RevisionExhausted => Gated(heads, ValidationFailed) && Revised(heads, Exhausted)
    case ExecutionFailed => FailsExecution(heads, proof)
    case EvidenceMissing => LacksEvidence(heads)
    case ValidationIsBlocked => Gated(heads, ValidationMissing) || Gated(heads, ValidationBlocked) || Gated(heads, ValidationConflict)
    case RevisionIsBlocked =>
      || LacksRevision(heads)
      || (Gated(heads, ValidationFailed)
          && (Revised(heads, RevisionBlocked) || Revised(heads, RevisionConflict) || Revised(heads, RevisionNotApplicable)))
    case PublicationIsBlocked =>
      LacksReview(heads) || (Publishable(heads) && (Reviewed(heads, ReviewBlocked) || Reviewed(heads, ReviewConflict) || Reviewed(heads, ReviewNotApplicable)))
    case EvidenceConflicting | UnknownTerminalReason => false
  }

  /** The integrity names what is wrong with that stream, if anything is. */
  predicate FitsIntegrity(integrity: Integrity, heads: map<Kind, Head>) {
    match integrity
    case Complete => !IsMissing(heads) && !IsBlocked(heads) && !IsConflicting(heads) && !IsNotApplicable(heads)
    case MissingEvidence => IsMissing(heads)
    case BlockedEvidence => IsBlocked(heads)
    case ConflictingEvidence => IsConflicting(heads)
    case NotApplicableEvidence => IsNotApplicable(heads)
  }

  /** How far execution and validation are told to have got. */
  predicate FitsOutcome(r: Snapshot, heads: map<Kind, Head>) {
    && (r.outcome == RunningNow <==> Executed(heads, Running))
    && (r.outcome == ExecutionDone <==> Executed(heads, Completed))
    && (r.outcome == ExecutionFailure <==> Executed(heads, Failed))
    && (r.outcome == ExecutionInterrupted <==> Executed(heads, Interrupted))
    && (forall validation :: r.validation == Some(validation) <==> Gated(heads, validation))
    && (r.phase == PreparedPhase <==> DispatchPrepared in heads && DispatchSubmitted !in heads)
    && (r.phase == HostAwaitingImport <==> Dispatched(heads) && HostExecution !in heads)
    && (r.phase == HostPending <==> Executed(heads, Imported) || Executed(heads, Pending))
    && (r.phase == HostRunning <==> Executed(heads, Running))
  }

  /** Whether the attempt and the item are over, and what refill is told. */
  predicate FitsTerminality(r: Snapshot, heads: map<Kind, Head>, proof: bool, drafted: bool) {
    && (r.itemTerminal <==> Ends(heads, proof, drafted))
    && (r.terminality.StillInFlight? <==> UnderWay(heads, drafted))
    && (r.terminality.TerminalAttempt? <==> Ends(heads, proof, drafted) || FailsExecution(heads, proof))
    && (r.attemptTerminal <==> r.terminality.TerminalAttempt?)
    && (r.action.ExcludeAndSelectNext? <==> Ends(heads, proof, drafted))
    && (r.retry.OperatorRequired? <==> FailsExecution(heads, proof))
    && (r.phase.BlockedPhase? <==> !UnderWay(heads, drafted) && !Ends(heads, proof, drafted))
  }

  predicate Fits(r: Snapshot, heads: map<Kind, Head>, proof: bool, drafted: bool) {
    && FitsDisposition(r.disposition, heads, proof, drafted) && FitsIntegrity(r.integrity, heads)
    && FitsOutcome(r, heads) && FitsTerminality(r, heads, proof, drafted)
  }

  // ---- every verdict fits its evidence ----

  /** What valid payloads add: the reason that goes with a review or an exhausted revision. */
  predicate Reasoned(heads: map<Kind, Head>) {
    && (forall kind :: kind in heads ==> KindOf(heads[kind].id.payload) == kind)
    && (RevisionDisposition in heads && heads[RevisionDisposition].id.payload.revision.Exhausted? ==>
          var reason := heads[RevisionDisposition].id.payload.revisionReason;
          reason.Some? && DispositionOf(reason.value) == RevisionExhausted)
    && (PublicationReview in heads ==>
          var review, reason := heads[PublicationReview].id.payload.review, heads[PublicationReview].id.payload.reviewReason;
          && (review.Drafted? ==> reason == Some(DraftedV1)) && (review.Merged? ==> reason == Some(MergedVerifiedV1))
          && (review.Rejected? ==> reason.Some? && DispositionOf(reason.value) == ItemRejected)
          && (review.TerminalNoPublication? ==> reason.Some? && DispositionOf(reason.value) == NoPublication))
  }

  lemma SoundIsReasoned(id: Identity, heads: map<Kind, Head>)
    requires SoundHeads(id, heads)
    ensures Reasoned(heads)
  {
    SoundKinds(id, heads);
    if RevisionDisposition in heads {
      assert ValidRevision(heads[RevisionDisposition].id.payload, heads[RevisionDisposition].closed);
    }
    if PublicationReview in heads {
      assert ValidReview(heads[PublicationReview].id.payload, heads[PublicationReview].closed);
    }
    hide ValidPayload, SoundHeads;
  }

  // One stream says one thing.

  lemma ExecutionSaid(heads: map<Kind, Head>)
    requires Reasoned(heads)
    ensures Dispatched(heads) && HostExecution in heads ==> exists e :: Executed(heads, e)
    ensures forall e, f :: Executed(heads, e) && Executed(heads, f) ==> e == f
    ensures forall e :: Executed(heads, e) ==> Dispatched(heads) && HostExecution in heads
    ensures Relays(heads) ==> Executed(heads, Completed)
    ensures forall v :: Gated(heads, v) ==> Relays(heads) && GateValidation in heads
  {
    if Dispatched(heads) && HostExecution in heads {
      assert Executed(heads, heads[HostExecution].id.payload.execution);
    }
  }

  lemma GateSaid(heads: map<Kind, Head>)
    requires Reasoned(heads)
    ensures forall v, w :: Gated(heads, v) && Gated(heads, w) ==> v == w
    ensures Relays(heads) && GateValidation in heads ==> exists v :: Gated(heads, v)
  {
    hide Relays;
    if Relays(heads) && GateValidation in heads {
      assert Gated(heads, heads[GateValidation].id.payload.validation);
    }
  }

  lemma RevisionSaid(heads: map<Kind, Head>)
    requires Reasoned(heads)
    ensures forall v, w :: Revised(heads, v) && Revised(heads, w) ==> v == w
    ensures RevisionDisposition in heads <==> exists v :: Revised(heads, v)
  {
    if RevisionDisposition in heads {
      assert Revised(heads, heads[RevisionDisposition].id.payload.revision);
    }
  }

  lemma ReviewSaid(heads: map<Kind, Head>)
    requires Reasoned(heads)
    ensures forall v, w :: Reviewed(heads, v) && Reviewed(heads, w) ==> v == w
    ensures PublicationReview in heads <==> exists v :: Reviewed(heads, v)
  {
    if PublicationReview in heads {
      assert Reviewed(heads, heads[PublicationReview].id.payload.review);
    }
  }

  lemma EarlyFits(id: Identity, heads: map<Kind, Head>, proof: bool, drafted: Option<Reason>)
    requires Reasoned(heads) && !Broke(heads) && !Executed(heads, Completed)
    ensures Fits(ReduceHeads(id, heads, proof, drafted), heads, proof, drafted.Some?)
  {
    ExecutionSaid(heads);
    assert NothingGated(heads);
    EarlyIs(id, heads, proof, drafted);
    var r := ReduceHeads(id, heads, proof, drafted);
    hide Gated, Relays, Executed, Revised, Reviewed, ReduceHeads, Reasoned, FitsDisposition, FitsIntegrity, FitsOutcome, FitsTerminality;
    EarlyFitsDisposition(heads, proof, drafted.Some?, r);
    EarlyFitsTerminality(heads, proof, drafted.Some?, r);
  }

  /** A phase that ends with the execution. */
  predicate IsEarly(phase: Phase) { phase in {PreparedPhase, HostAwaitingImport, HostPending, HostRunning} }

  function EarlyPhase(heads: map<Kind, Head>): Phase {
    if DispatchSubmitted !in heads then PreparedPhase
    else if HostExecution !in heads then HostAwaitingImport
    else if Executed(heads, Running) then HostRunning
    else HostPending
  }

  predicate EarlyShape(heads: map<Kind, Head>, r: Snapshot) {
    && (DispatchPrepared in heads ==> r.phase == EarlyPhase(heads))
    && r.outcome == (if Executed(heads, Running) then RunningNow else NotStarted) && r.validation.None?
    && if DispatchPrepared in heads then Waits(r) else Blocks(r, MissingEvidence, EvidenceMissing)
  }

  lemma EarlyIs(id: Identity, heads: map<Kind, Head>, proof: bool, drafted: Option<Reason>)
    requires Reasoned(heads) && !Broke(heads) && !Executed(heads, Completed)
    ensures EarlyShape(heads, ReduceHeads(id, heads, proof, drafted))
  {
    hide ReduceCompleted, MergedReason, TerminalItem;
  }

  ghost predicate BeforeTheEnd(heads: map<Kind, Head>) {
    && NothingGated(heads) && !Broke(heads) && !Executed(heads, Completed)
    && (Dispatched(heads) && HostExecution in heads ==> exists e :: Executed(heads, e))
    && (forall e, f :: Executed(heads, e) && Executed(heads, f) ==> e == f)
    && (forall e :: Executed(heads, e) ==> Dispatched(heads) && HostExecution in heads)
  }

  lemma EarlyFitsDisposition(heads: map<Kind, Head>, proof: bool, drafted: bool, r: Snapshot)
    requires BeforeTheEnd(heads) && EarlyShape(heads, r)
    ensures FitsDisposition(r.disposition, heads, proof, drafted) && FitsIntegrity(r.integrity, heads) && FitsOutcome(r, heads)
  {
    hide Gated, Relays, Executed, Revised, Reviewed;
  }

  lemma EarlyFitsTerminality(heads: map<Kind, Head>, proof: bool, drafted: bool, r: Snapshot)
    requires BeforeTheEnd(heads) && EarlyShape(heads, r)
    ensures FitsTerminality(r, heads, proof, drafted)
  {
    hide Gated, Relays, Executed, Revised, Reviewed;
  }

  /** The candidate has not come to its gate. */
  ghost predicate NothingGated(heads: map<Kind, Head>) { !Relays(heads) && forall v :: !Gated(heads, v) }

  lemma EndedFits(id: Identity, heads: map<Kind, Head>, proof: bool, drafted: Option<Reason>)
    requires Reasoned(heads) && Broke(heads)
    ensures Fits(ReduceHeads(id, heads, proof, drafted), heads, proof, drafted.Some?)
  {
    ExecutionSaid(heads);
    var r := ReduceHeads(id, heads, proof, drafted);
    assert NothingGated(heads);
    EndedIs(id, heads, proof, drafted);
    hide Gated, Relays, Executed, Revised, Reviewed, ReduceHeads, Reasoned, FitsDisposition, FitsIntegrity, FitsOutcome, FitsTerminality;
    EndedFitsDisposition(heads, proof, drafted.Some?, r);
    EndedFitsTerminality(heads, proof, drafted.Some?, r);
  }

  lemma EndedFitsDisposition(heads: map<Kind, Head>, proof: bool, drafted: bool, r: Snapshot)
    requires EndedShape(heads, proof, r) && NothingGated(heads) && Broke(heads)
    requires forall e, f :: Executed(heads, e) && Executed(heads, f) ==> e == f
    requires Dispatched(heads) && HostExecution in heads
    ensures FitsDisposition(r.disposition, heads, proof, drafted) && FitsIntegrity(r.integrity, heads) && FitsOutcome(r, heads)
  {
    hide Gated, Relays, Executed, Revised, Reviewed;
  }

  lemma EndedFitsTerminality(heads: map<Kind, Head>, proof: bool, drafted: bool, r: Snapshot)
    requires EndedShape(heads, proof, r) && NothingGated(heads) && Broke(heads)
    requires forall e, f :: Executed(heads, e) && Executed(heads, f) ==> e == f
    requires Dispatched(heads) && HostExecution in heads
    ensures FitsTerminality(r, heads, proof, drafted)
  {
    hide Gated, Relays, Executed, Revised, Reviewed;
  }

  lemma MergedIsReasoned(heads: map<Kind, Head>, proof: bool)
    requires Reasoned(heads)
    ensures
      var reason := MergedReason(PayloadIn(heads, PublicationReview), proof);
      && (reason.Some? <==> proof || Reviewed(heads, Merged)) && (reason.Some? ==> DispositionOf(reason.value) == SuccessMerged)
  {}

  predicate EndedShape(heads: map<Kind, Head>, proof: bool, r: Snapshot) {
    var merged := proof || Reviewed(heads, Merged);
    && r.outcome == (if Executed(heads, Failed) then ExecutionFailure else ExecutionInterrupted)
    && r.validation.None? && r.integrity == Complete && r.terminality == TerminalAttempt && r.attemptTerminal
    && r.itemTerminal == merged && r.disposition == (if merged then SuccessMerged else ExecutionFailed)
    && r.action == (if merged then ExcludeAndSelectNext else BlockFailClosed)
    && r.retry == (if merged then RetryNotApplicable else OperatorRequired)
    && r.phase == (if merged then ReviewRecorded else BlockedPhase)
  }

  lemma EndedIs(id: Identity, heads: map<Kind, Head>, proof: bool, drafted: Option<Reason>)
    requires Reasoned(heads) && Broke(heads)
    ensures EndedShape(heads, proof, ReduceHeads(id, heads, proof, drafted))
  {
    MergedIsReasoned(heads, proof);
    hide ReduceCompleted, MergedReason, Reviewed, Reasoned, Waits, Blocks;
  }

  /** What an attempt executed to the end is reduced from. */
  function DoneBase(id: Identity, heads: map<Kind, Head>): Snapshot { Base(id, heads).(phase := ExecutionArchived, outcome := ExecutionDone) }

  function GatedBase(id: Identity, heads: map<Kind, Head>, validation: Validation): Snapshot {
    DoneBase(id, heads).(phase := ValidationRecorded, validation := Some(validation))
  }

  /** A blocked verdict. */
  predicate Blocks(r: Snapshot, integrity: Integrity, why: Disposition) {
    && r.phase.BlockedPhase? && r.integrity == integrity && r.disposition == why && !r.itemTerminal && !r.attemptTerminal
    && r.terminality.BlockedAttempt? && r.action.BlockFailClosed? && r.retry.RetryNotApplicable?
  }

  predicate Waits(r: Snapshot) {
    && !r.phase.BlockedPhase? && r.integrity == Complete && r.disposition == InFlight && !r.itemTerminal && !r.attemptTerminal
    && r.terminality.StillInFlight? && r.action.BlockFailClosed? && r.retry.RetryNotApplicable?
  }

  predicate Concludes(r: Snapshot, disposition: Disposition) {
    && !r.phase.BlockedPhase? && r.integrity == Complete && r.disposition == disposition && r.itemTerminal && r.attemptTerminal
    && r.terminality.TerminalAttempt? && r.action.ExcludeAndSelectNext? && r.retry.RetryNotApplicable?
  }

  datatype Class = Waiting | Concluding(disposition: Disposition) | Blocking(integrity: Integrity, why: Disposition)

  predicate Is(r: Snapshot, kind: Class) {
    !IsEarly(r.phase) && match kind
    case Waiting => Waits(r)
    case Concluding(disposition) => Concludes(r, disposition)
    case Blocking(integrity, why) => Blocks(r, integrity, why)
  }

  function ReviewClass(review: Review): Class {
    match review
    case AwaitingReview => Waiting
    case Drafted => Concluding(SuccessDrafted)
    case Merged => Concluding(SuccessMerged)
    case Rejected => Concluding(ItemRejected)
    case TerminalNoPublication => Concluding(NoPublication)
    case ReviewBlocked => Blocking(BlockedEvidence, PublicationIsBlocked)
    case ReviewMissing => Blocking(MissingEvidence, PublicationIsBlocked)
    case ReviewConflict => Blocking(ConflictingEvidence, PublicationIsBlocked)
    case ReviewNotApplicable => Blocking(NotApplicableEvidence, PublicationIsBlocked)
  }

  function RevisionClass(revision: Revision, drafted: bool): Class {
    match revision
    case Queued => if drafted then Concluding(SuccessDrafted) else Waiting
    case Exhausted => Concluding(RevisionExhausted)
    case RevisionBlocked => Blocking(BlockedEvidence, RevisionIsBlocked)
    case RevisionMissing => Blocking(MissingEvidence, RevisionIsBlocked)
    case RevisionConflict => Blocking(ConflictingEvidence, RevisionIsBlocked)
    case RevisionNotApplicable => Blocking(NotApplicableEvidence, RevisionIsBlocked)
  }

  lemma UngatedFits(id: Identity, heads: map<Kind, Head>, proof: bool, drafted: Option<Reason>)
    requires Reasoned(heads) && Executed(heads, Completed) && (!Relays(heads) || GateValidation !in heads)
    ensures Fits(ReduceCompleted(DoneBase(id, heads), heads, drafted), heads, proof, drafted.Some?)
  {
    ExecutionSaid(heads);
    UngatedIs(id, heads, drafted);
    var r := ReduceCompleted(DoneBase(id, heads), heads, drafted);
    hide Gated, Relays, Executed, Revised, Reviewed, ReduceCompleted, Reasoned, FitsDisposition, FitsIntegrity, FitsOutcome, FitsTerminality, Blocks;
    UngatedBlocksFits(heads, proof, drafted.Some?, r);
  }

  lemma UngatedIs(id: Identity, heads: map<Kind, Head>, drafted: Option<Reason>)
    requires Reasoned(heads) && Executed(heads, Completed) && (!Relays(heads) || GateValidation !in heads)
    ensures
      var r := ReduceCompleted(DoneBase(id, heads), heads, drafted);
      Blocks(r, MissingEvidence, EvidenceMissing) && r.outcome == ExecutionDone && r.validation.None?
  {
    hide ReduceRejected, ReducePassed;
  }

  lemma UngatedBlocksFits(heads: map<Kind, Head>, proof: bool, drafted: bool, r: Snapshot)
    requires Executed(heads, Completed) && (!Relays(heads) || GateValidation !in heads)
    requires forall e, f :: Executed(heads, e) && Executed(heads, f) ==> e == f
    requires Dispatched(heads) && HostExecution in heads && forall v :: Gated(heads, v) ==> Relays(heads) && GateValidation in heads
    requires Blocks(r, MissingEvidence, EvidenceMissing) && r.outcome == ExecutionDone && r.validation.None?
    ensures Fits(r, heads, proof, drafted)
  {
    hide Gated, Relays, Executed, Revised, Reviewed;
  }

  lemma UnvalidatedFits(id: Identity, heads: map<Kind, Head>, proof: bool, drafted: Option<Reason>)
    requires Reasoned(heads) && (Gated(heads, ValidationMissing) || Gated(heads, ValidationBlocked) || Gated(heads, ValidationConflict))
    ensures Fits(ReduceCompleted(DoneBase(id, heads), heads, drafted), heads, proof, drafted.Some?)
  {
    ExecutionSaid(heads);
    GateSaid(heads);
    var r := ReduceCompleted(DoneBase(id, heads), heads, drafted);
    UnvalidatedIs(id, heads, drafted);
    hide Gated, Relays, Executed, Revised, Reviewed, ReduceCompleted, Reasoned, FitsDisposition, FitsIntegrity, FitsOutcome, FitsTerminality;
    UnvalidatedFitsDisposition(heads, proof, drafted.Some?, r);
    UnvalidatedFitsTerminality(heads, proof, drafted.Some?, r);
  }

  predicate UnvalidatedShape(heads: map<Kind, Head>, r: Snapshot) {
    && r.outcome == ExecutionDone
    && (Gated(heads, ValidationMissing) ==> Blocks(r, MissingEvidence, ValidationIsBlocked) && r.validation == Some(ValidationMissing))
    && (Gated(heads, ValidationBlocked) ==> Blocks(r, BlockedEvidence, ValidationIsBlocked) && r.validation == Some(ValidationBlocked))
    && (Gated(heads, ValidationConflict) ==> Blocks(r, ConflictingEvidence, ValidationIsBlocked) && r.validation == Some(ValidationConflict))
  }

  lemma UnvalidatedIs(id: Identity, heads: map<Kind, Head>, drafted: Option<Reason>)
    requires Gated(heads, ValidationMissing) || Gated(heads, ValidationBlocked) || Gated(heads, ValidationConflict)
    ensures UnvalidatedShape(heads, ReduceCompleted(DoneBase(id, heads), heads, drafted))
  {
    hide ReduceRejected, ReducePassed;
  }

  /** The gate said that, and nothing else. */
  ghost predicate GateOnly(heads: map<Kind, Head>) {
    && (forall e :: Executed(heads, e) <==> e == Completed) && Relays(heads)
    && (forall v, w :: Gated(heads, v) && Gated(heads, w) ==> v == w)
    && Dispatched(heads) && HostExecution in heads && GateValidation in heads
  }

  lemma UnvalidatedFitsDisposition(heads: map<Kind, Head>, proof: bool, drafted: bool, r: Snapshot)
    requires GateOnly(heads) && UnvalidatedShape(heads, r)
    requires Gated(heads, ValidationMissing) || Gated(heads, ValidationBlocked) || Gated(heads, ValidationConflict)
    ensures FitsDisposition(r.disposition, heads, proof, drafted) && FitsIntegrity(r.integrity, heads) && FitsOutcome(r, heads)
  {
    hide Gated, Relays, Executed, Revised, Reviewed;
  }

  lemma UnvalidatedFitsTerminality(heads: map<Kind, Head>, proof: bool, drafted: bool, r: Snapshot)
    requires GateOnly(heads) && UnvalidatedShape(heads, r)
    requires Gated(heads, ValidationMissing) || Gated(heads, ValidationBlocked) || Gated(heads, ValidationConflict)
    ensures FitsTerminality(r, heads, proof, drafted)
  {
    hide Gated, Relays, Executed, Revised, Reviewed;
  }

  lemma RejectedFits(id: Identity, heads: map<Kind, Head>, proof: bool, drafted: Option<Reason>)
    requires Reasoned(heads) && Gated(heads, ValidationFailed) && (drafted.Some? ==> drafted.value == DraftedV1)
    ensures Fits(ReduceRejected(GatedBase(id, heads, ValidationFailed), PayloadIn(heads, RevisionDisposition), drafted), heads, proof, drafted.Some?)
  {
    ExecutionSaid(heads);
    GateSaid(heads);
    RevisionSaid(heads);
    var r := ReduceRejected(GatedBase(id, heads, ValidationFailed), PayloadIn(heads, RevisionDisposition), drafted);
    RejectedIs(id, heads, drafted);
    hide Gated, Relays, Executed, Revised, Reviewed, ReduceRejected, Reasoned, RejectedShape, FitsDisposition, FitsIntegrity, FitsOutcome, FitsTerminality;
    RejectedFitsDisposition(heads, proof, drafted.Some?, r);
    RejectedFitsTerminality(heads, proof, drafted.Some?, r);
  }

  ghost predicate RejectedShape(heads: map<Kind, Head>, drafted: bool, r: Snapshot) {
    && r.outcome == ExecutionDone && r.validation == Some(ValidationFailed)
    && (RevisionDisposition !in heads ==> Blocks(r, MissingEvidence, RevisionIsBlocked))
    && forall v :: Revised(heads, v) ==> Is(r, RevisionClass(v, drafted))
  }

  lemma TerminalConcludes(base: Snapshot, disposition: Disposition, reason: Option<Reason>)
    requires Waits(base) && reason.Some? && DispositionOf(reason.value) == disposition
    ensures
      var r := TerminalItem(base, disposition, reason);
      Concludes(r, disposition) && r.outcome == base.outcome && r.validation == base.validation && r.phase == base.phase
  {}

  lemma BlockedBlocks(base: Snapshot, integrity: Integrity, why: Disposition)
    requires Waits(base)
    ensures
      var r := Blocked(base, integrity, why);
      Blocks(r, integrity, why) && r.outcome == base.outcome && r.validation == base.validation && r.phase.BlockedPhase?
  {}

  lemma RejectedIs(id: Identity, heads: map<Kind, Head>, drafted: Option<Reason>)
    requires Reasoned(heads) && (drafted.Some? ==> drafted.value == DraftedV1)
    ensures
      RejectedShape(heads, drafted.Some?, ReduceRejected(GatedBase(id, heads, ValidationFailed), PayloadIn(heads, RevisionDisposition), drafted))
  {
    var gated := GatedBase(id, heads, ValidationFailed);
    assert Waits(gated);
    if RevisionDisposition in heads {
      RevisionIs(gated, heads[RevisionDisposition].id.payload, drafted);
    }
    hide Waits, TerminalItem, Concludes, Blocks;
    if RevisionDisposition !in heads {
      BlockedBlocks(gated, MissingEvidence, RevisionIsBlocked);
    }
    hide Is, ReduceRejected;
  }

  lemma RevisionIs(gated: Snapshot, p: Payload, drafted: Option<Reason>)
    requires Waits(gated) && p.RevisionPayload? && (drafted.Some? ==> drafted.value == DraftedV1)
    requires p.revision.Exhausted? ==> p.revisionReason.Some? && DispositionOf(p.revisionReason.value) == RevisionExhausted
    ensures
      var r := ReduceRejected(gated, Some(p), drafted);
      Is(r, RevisionClass(p.revision, drafted.Some?)) && r.outcome == gated.outcome && r.validation == gated.validation
  {
    var revised := gated.(phase := RevisionRecorded, revision := Some(p.revision));
    var drawn := revised.(phase := ReviewRecorded, review := Some(Drafted));
    assert Waits(revised) && Waits(drawn) by { StillWaits(gated, p.revision); }
    hide Waits, TerminalItem, Blocked, Concludes, Blocks, IsEarly;
    assert !IsEarly(RevisionRecorded) && !IsEarly(ReviewRecorded) && !IsEarly(BlockedPhase) by { LatePhases(); }
    match p.revision
    case Queued => if drafted.Some? { TerminalConcludes(drawn, SuccessDrafted, drafted); }
    case Exhausted => TerminalConcludes(revised, RevisionExhausted, p.revisionReason);
    case RevisionBlocked => BlockedBlocks(revised, BlockedEvidence, RevisionIsBlocked);
    case RevisionMissing => BlockedBlocks(revised, MissingEvidence, RevisionIsBlocked);
    case RevisionConflict => BlockedBlocks(revised, ConflictingEvidence, RevisionIsBlocked);
    case RevisionNotApplicable => BlockedBlocks(revised, NotApplicableEvidence, RevisionIsBlocked);
  }

  lemma LatePhases()
    ensures !IsEarly(RevisionRecorded) && !IsEarly(ReviewRecorded) && !IsEarly(BlockedPhase)
  {}

  lemma StillWaits(gated: Snapshot, revision: Revision)
    requires Waits(gated)
    ensures Waits(gated.(phase := RevisionRecorded, revision := Some(revision)))
    ensures Waits(gated.(phase := ReviewRecorded, revision := Some(revision), review := Some(Drafted)))
  {}

  /** The streams of a candidate that failed its gate. */
  ghost predicate FailedGate(heads: map<Kind, Head>) {
    && (forall e :: Executed(heads, e) <==> e == Completed) && Relays(heads) && (forall v :: Gated(heads, v) <==> v == ValidationFailed)
    && Dispatched(heads) && HostExecution in heads && GateValidation in heads
    && (forall v, w :: Revised(heads, v) && Revised(heads, w) ==> v == w)
    && (RevisionDisposition in heads <==> exists v :: Revised(heads, v))
  }

  lemma RejectedFitsDisposition(heads: map<Kind, Head>, proof: bool, drafted: bool, r: Snapshot)
    requires FailedGate(heads) && RejectedShape(heads, drafted, r)
    ensures FitsDisposition(r.disposition, heads, proof, drafted) && FitsIntegrity(r.integrity, heads) && FitsOutcome(r, heads)
  {
    hide Gated, Relays, Executed, Revised, Reviewed;
  }

  lemma RejectedFitsTerminality(heads: map<Kind, Head>, proof: bool, drafted: bool, r: Snapshot)
    requires FailedGate(heads) && RejectedShape(heads, drafted, r)
    ensures FitsTerminality(r, heads, proof, drafted)
  {
    hide Gated, Relays, Executed, Revised, Reviewed;
  }

  lemma PassedFits(id: Identity, heads: map<Kind, Head>, proof: bool, drafted: Option<Reason>)
    requires Reasoned(heads) && Gated(heads, Passed)
    ensures
      Fits(ReducePassed(GatedBase(id, heads, Passed), PayloadIn(heads, RevisionDisposition), PayloadIn(heads, PublicationReview)),
           heads, proof, drafted.Some?)
  {
    ExecutionSaid(heads);
    GateSaid(heads);
    RevisionSaid(heads);
    ReviewSaid(heads);
    PassedIs(id, heads);
    var r := ReducePassed(GatedBase(id, heads, Passed), PayloadIn(heads, RevisionDisposition), PayloadIn(heads, PublicationReview));
    hide Gated, Relays, Executed, Revised, Reviewed, ReducePassed, Reasoned, PassedShape, FitsDisposition, FitsIntegrity, FitsOutcome, FitsTerminality;
    PassedFitsDisposition(heads, proof, drafted.Some?, r);
    PassedFitsTerminality(heads, proof, drafted.Some?, r);
  }

  ghost predicate PassedShape(heads: map<Kind, Head>, r: Snapshot) {
    && r.outcome == ExecutionDone && r.validation == Some(Passed)
    && (!Revised(heads, RevisionNotApplicable) ==> Blocks(r, MissingEvidence, RevisionIsBlocked))
    && (Revised(heads, RevisionNotApplicable) && PublicationReview !in heads ==> Blocks(r, MissingEvidence, PublicationIsBlocked))
    && (Revised(heads, RevisionNotApplicable) ==> forall v :: Reviewed(heads, v) ==> Is(r, ReviewClass(v)))
  }

  lemma PassedIs(id: Identity, heads: map<Kind, Head>)
    requires Reasoned(heads)
    ensures
      PassedShape(heads, ReducePassed(GatedBase(id, heads, Passed), PayloadIn(heads, RevisionDisposition), PayloadIn(heads, PublicationReview)))
  {
    var gated := GatedBase(id, heads, Passed);
    var cleared := gated.(revision := Some(RevisionNotApplicable));
    assert Waits(gated) && Waits(cleared);
    if Revised(heads, RevisionNotApplicable) && PublicationReview in heads {
      hide Waits, TerminalItem, Concludes, Blocks, Blocked;
      ReviewIs(cleared, heads[PublicationReview].id.payload);
      ClearedIsReviewed(gated, heads[RevisionDisposition].id.payload, heads[PublicationReview].id.payload);
      hide ReducePassed, Is;
    } else {
      UnclearedIs(gated, PayloadIn(heads, RevisionDisposition), PayloadIn(heads, PublicationReview));
      hide ReducePassed, Is, Waits, Blocks;
    }
  }

  lemma UnclearedIs(gated: Snapshot, revision: Option<Payload>, review: Option<Payload>)
    requires Waits(gated) && (revision.Some? ==> revision.value.RevisionPayload?)
    ensures
      var r := ReducePassed(gated, revision, review);
      && (revision.None? || !revision.value.revision.RevisionNotApplicable? ==>
            Blocks(r, MissingEvidence, RevisionIsBlocked) && r.outcome == gated.outcome && r.validation == gated.validation)
      && (revision.Some? && revision.value.revision.RevisionNotApplicable? && review.None? ==>
            Blocks(r, MissingEvidence, PublicationIsBlocked) && r.outcome == gated.outcome && r.validation == gated.validation)
  {
    var cleared := gated.(revision := Some(RevisionNotApplicable));
    assert Waits(cleared);
    hide Waits, TerminalItem, Concludes, Blocks, Blocked;
    BlockedBlocks(gated, MissingEvidence, RevisionIsBlocked);
    BlockedBlocks(cleared, MissingEvidence, PublicationIsBlocked);
  }

  /** The verdict of the review alone. */
  function AfterReview(cleared: Snapshot, p: Payload): Snapshot
    requires p.ReviewPayload?
  {
    var reviewed := cleared.(phase := ReviewRecorded, review := Some(p.review));
    match ReviewClass(p.review)
    case Waiting => reviewed
    case Concluding(disposition) => TerminalItem(reviewed, disposition, p.reviewReason)
    case Blocking(integrity, why) => Blocked(reviewed, integrity, why)
  }

  lemma ClearedIsReviewed(gated: Snapshot, revision: Payload, p: Payload)
    requires revision.RevisionPayload? && revision.revision.RevisionNotApplicable? && p.ReviewPayload?
    ensures ReducePassed(gated, Some(revision), Some(p)) == AfterReview(gated.(revision := Some(RevisionNotApplicable)), p)
  {
    hide TerminalItem, Blocked;
  }

  lemma ReviewIs(cleared: Snapshot, p: Payload)
    requires Waits(cleared) && p.ReviewPayload?
    requires ReviewClass(p.review).Concluding? ==>
      p.reviewReason.Some? && DispositionOf(p.reviewReason.value) == ReviewClass(p.review).disposition
    ensures
      var r := AfterReview(cleared, p);
      Is(r, ReviewClass(p.review)) && r.outcome == cleared.outcome && r.validation == cleared.validation
  {
    var reviewed := cleared.(phase := ReviewRecorded, review := Some(p.review));
    assert Waits(reviewed);
    hide Waits, TerminalItem, Blocked, Concludes, Blocks, ReviewClass, IsEarly;
    assert !IsEarly(ReviewRecorded) && !IsEarly(BlockedPhase) by { LatePhases(); }
    match ReviewClass(p.review)
    case Waiting =>
    case Concluding(disposition) => TerminalConcludes(reviewed, disposition, p.reviewReason);
    case Blocking(integrity, why) => BlockedBlocks(reviewed, integrity, why);
  }

  /** The streams of a candidate that passed its gate. */
  ghost predicate PassedGate(heads: map<Kind, Head>) {
    && (forall e :: Executed(heads, e) <==> e == Completed) && Relays(heads) && (forall v :: Gated(heads, v) <==> v == Passed)
    && Dispatched(heads) && HostExecution in heads && GateValidation in heads
    && (forall v, w :: Reviewed(heads, v) && Reviewed(heads, w) ==> v == w)
    && (PublicationReview in heads <==> exists v :: Reviewed(heads, v))
  }

  lemma PassedFitsDisposition(heads: map<Kind, Head>, proof: bool, drafted: bool, r: Snapshot)
    requires PassedGate(heads) && PassedShape(heads, r)
    ensures FitsDisposition(r.disposition, heads, proof, drafted) && FitsIntegrity(r.integrity, heads) && FitsOutcome(r, heads)
  {
    hide Gated, Relays, Executed, Revised, Reviewed;
  }

  lemma PassedFitsTerminality(heads: map<Kind, Head>, proof: bool, drafted: bool, r: Snapshot)
    requires PassedGate(heads) && PassedShape(heads, r)
    ensures FitsTerminality(r, heads, proof, drafted)
  {
    hide Gated, Relays, Executed, Revised, Reviewed;
  }

  /**
   Exactly what each verdict says, over the payloads of sound heads: an attempt is in flight if and only if work on
   it goes on or is still to come; each terminal disposition has its own review, revision or completion evidence;
   every other verdict is blocked, with the disposition and the integrity of the stream that is missing, blocked or
   conflicting. One disposition and one integrity fit, and phase, outcome, retry and action follow.
   */
  lemma VerdictIsExact(id: Identity, heads: map<Kind, Head>, proof: bool, drafted: Option<Reason>)
    requires SoundHeads(id, heads) && (drafted.Some? ==> drafted.value == DraftedV1)
    ensures
      var r := ReduceHeads(id, heads, proof, drafted);
      && (forall d :: r.disposition == d <==> FitsDisposition(d, heads, proof, drafted.Some?))
      && (forall i :: r.integrity == i <==> FitsIntegrity(i, heads))
      && FitsOutcome(r, heads) && FitsTerminality(r, heads, proof, drafted.Some?)
  {
    VerdictFits(id, heads, proof, drafted);
    SoundIsReasoned(id, heads);
    var r := ReduceHeads(id, heads, proof, drafted);
    hide FitsDisposition, FitsIntegrity, FitsOutcome, FitsTerminality, ReduceHeads, SoundHeads, Reasoned;
    forall d | FitsDisposition(d, heads, proof, drafted.Some?) ensures d == r.disposition {
      OneDispositionFits(heads, d, r.disposition, proof, drafted.Some?);
    }
    forall i | FitsIntegrity(i, heads) ensures i == r.integrity {
      OneIntegrityFits(heads, i, r.integrity);
    }
  }

  lemma VerdictFits(id: Identity, heads: map<Kind, Head>, proof: bool, drafted: Option<Reason>)
    requires SoundHeads(id, heads) && (drafted.Some? ==> drafted.value == DraftedV1)
    ensures Fits(ReduceHeads(id, heads, proof, drafted), heads, proof, drafted.Some?)
  {
    SoundIsReasoned(id, heads);
    hide SoundHeads, Fits, ReduceHeads;
    if !Broke(heads) && !Executed(heads, Completed) {
      EarlyFits(id, heads, proof, drafted);
    } else if Broke(heads) {
      EndedFits(id, heads, proof, drafted);
    } else {
      hide Reasoned;
      CompletedFits(id, heads, proof, drafted);
      CompletedIsReduced(id, heads, proof, drafted);
    }
  }

  lemma CompletedIsReduced(id: Identity, heads: map<Kind, Head>, proof: bool, drafted: Option<Reason>)
    requires Executed(heads, Completed)
    ensures ReduceHeads(id, heads, proof, drafted) == ReduceCompleted(DoneBase(id, heads), heads, drafted)
  {
    hide ReduceCompleted;
  }

  lemma CompletedFits(id: Identity, heads: map<Kind, Head>, proof: bool, drafted: Option<Reason>)
    requires Reasoned(heads) && Executed(heads, Completed) && (drafted.Some? ==> drafted.value == DraftedV1)
    ensures Fits(ReduceCompleted(DoneBase(id, heads), heads, drafted), heads, proof, drafted.Some?)
  {
    hide Fits, Executed;
    if !Relays(heads) || GateValidation !in heads {
      UngatedFits(id, heads, proof, drafted);
    } else {
      match heads[GateValidation].id.payload.validation
      case ValidationFailed =>
        RejectedFits(id, heads, proof, drafted);
        hide ReduceRejected, ReducePassed;
      case Passed =>
        PassedFits(id, heads, proof, drafted);
        hide ReduceRejected, ReducePassed;
      case _ => UnvalidatedFits(id, heads, proof, drafted);
    }
  }

  // ---- no two dispositions fit ----

  lemma GateIsRead(heads: map<Kind, Head>)
    requires Reasoned(heads)
    ensures Gated(heads, Passed) ==> PassedGate(heads)
    ensures Gated(heads, ValidationFailed) ==> FailedGate(heads)
    ensures ReadOnce(heads)
  {
    ExecutionSaid(heads);
    GateSaid(heads);
    RevisionSaid(heads);
    ReviewSaid(heads);
    hide Executed, Relays, Gated, Revised, Reviewed, Reasoned;
  }

  ghost predicate ReadOnce(heads: map<Kind, Head>) {
    && (forall e, f :: Executed(heads, e) && Executed(heads, f) ==> e == f)
    && (forall e :: Executed(heads, e) ==> Dispatched(heads) && HostExecution in heads)
    && (Relays(heads) ==> Executed(heads, Completed))
    && (forall v :: Gated(heads, v) ==> Relays(heads) && GateValidation in heads)
  }

  lemma OneDispositionFits(heads: map<Kind, Head>, a: Disposition, b: Disposition, proof: bool, drafted: bool)
    requires Reasoned(heads) && FitsDisposition(a, heads, proof, drafted) && FitsDisposition(b, heads, proof, drafted)
    ensures a == b
  {
    hide *;
    GateIsRead(heads);
    if Gated(heads, Passed) {
      OnePassingFits(heads, a, b, proof, drafted);
    } else if Gated(heads, ValidationFailed) {
      OneFailingFits(heads, a, b, proof, drafted);
    } else {
      OneOtherFits(heads, a, b, proof, drafted);
    }
  }

  lemma OnePassingFits(heads: map<Kind, Head>, a: Disposition, b: Disposition, proof: bool, drafted: bool)
    requires PassedGate(heads) && FitsDisposition(a, heads, proof, drafted) && FitsDisposition(b, heads, proof, drafted)
    ensures a == b
  {
    hide Executed, Relays, Gated, Revised, Reviewed;
  }

  lemma OneFailingFits(heads: map<Kind, Head>, a: Disposition, b: Disposition, proof: bool, drafted: bool)
    requires FailedGate(heads) && FitsDisposition(a, heads, proof, drafted) && FitsDisposition(b, heads, proof, drafted)
    ensures a == b
  {
    hide Executed, Relays, Gated, Revised, Reviewed;
  }

  lemma OneOtherFits(heads: map<Kind, Head>, a: Disposition, b: Disposition, proof: bool, drafted: bool)
    requires !Gated(heads, Passed) && !Gated(heads, ValidationFailed) && ReadOnce(heads)
    requires FitsDisposition(a, heads, proof, drafted) && FitsDisposition(b, heads, proof, drafted)
    ensures a == b
  {
    hide Executed, Relays, Gated, Revised, Reviewed;
  }

  lemma OneIntegrityFits(heads: map<Kind, Head>, a: Integrity, b: Integrity)
    requires Reasoned(heads) && FitsIntegrity(a, heads) && FitsIntegrity(b, heads)
    ensures a == b
  {
    ExecutionSaid(heads);
    GateSaid(heads);
    RevisionSaid(heads);
    ReviewSaid(heads);
    hide Executed, Relays, Gated, Revised, Reviewed, Reasoned;
  }

  // ---- from the evidence directories to what refill is told ----

  lemma DraftedForIsV1(s: Store, id: Identity)
    requires Sound(s)
    ensures DraftedFor(s, id).Some? ==> DraftedFor(s, id).value == DraftedV1
  {
    hide Sound, Walk, HeadsOf;
    var p := PayloadIn(HeadsOf(s, id), RevisionDisposition);
    if p.Some? && p.value.RevisionPayload? {
      var start := if p.value.descendant.Some? then Strip(p.value.descendant.value) else "";
      if Walk(s, ScopeOf(id), start, {}).Some? {
        FoundIsDraftedV1(s, ScopeOf(id), start);
      }
    }
  }

  /** The same over an evidence store, with the drafted descendants found there. */
  lemma ReductionIsExact(s: Store, id: Identity, proof: bool)
    requires Sound(s)
    ensures
      var r, heads, drafted := Reduce(s, id, proof), HeadsOf(s, id), DraftedFor(s, id).Some?;
      && (forall d :: r.disposition == d <==> FitsDisposition(d, heads, proof, drafted))
      && (forall i :: r.integrity == i <==> FitsIntegrity(i, heads))
      && FitsOutcome(r, heads) && FitsTerminality(r, heads, proof, drafted)
  {
    hide Sound, HeadsOf, DraftedFor, ReduceHeads, SoundHeads, FitsDisposition, FitsIntegrity, FitsOutcome, FitsTerminality;
    HeadsOfAreSound(s, id);
    DraftedForIsV1(s, id);
    VerdictIsExact(id, HeadsOf(s, id), proof, DraftedFor(s, id));
  }

  /**
   Refill is told of a settled attempt exactly what its streams say: terminal if and only if it ended, in flight if
   and only if it is under way, and unknown otherwise.
   */
  lemma ClassificationIsExact(s: Store, d: Disk, id: Identity, proof: bool, required: bool)
    requires Sound(s) && Settled(d) && id in d.attempts && d.attempts[id] == Reduce(s, id, proof)
    requires Matching(d, id.job, Some(id.generation)) == {id}
    ensures
      var heads, drafted := HeadsOf(s, id), DraftedFor(s, id).Some?;
      var r := Classify(s, d, id.job, Some(id.generation), required);
      && r.Ok? && r.value.Classified? && r.value.snapshot == d.attempts[id]
      && (r.value.category.ItemTerminal? <==> Ends(heads, proof, drafted))
      && (r.value.category.AttemptInFlight? <==> UnderWay(heads, drafted))
  {
    hide *;
    ReductionIsReduced(s, id, proof);
    ReductionIsExact(s, id, proof);
    SettledIsClassified(s, d, id, required);
    CategoryFits(d.attempts[id], HeadsOf(s, id), proof, DraftedFor(s, id).Some?);
  }

  lemma CategoryFits(r: Snapshot, heads: map<Kind, Head>, proof: bool, drafted: bool)
    requires FitsTerminality(r, heads, proof, drafted)
    ensures CategoryOf(r).ItemTerminal? <==> Ends(heads, proof, drafted)
    ensures CategoryOf(r).AttemptInFlight? <==> UnderWay(heads, drafted)
  {
    hide Ends, UnderWay, FailsExecution;
  }

  lemma SettledIsClassified(s: Store, d: Disk, id: Identity, required: bool)
    requires Settled(d) && id in d.attempts && Matching(d, id.job, Some(id.generation)) == {id}
    requires d.attempts[id].identity == id && d.attempts[id].evidence == HeadsOf(s, id)
    ensures Classify(s, d, id.job, Some(id.generation), required) == Ok(Classified(CategoryOf(d.attempts[id]), d.attempts[id]))
  {
    assert SettledAt(d, id);
    hide Settled, HeadsOf, CategoryOf;
    assert Fresh(s, d, d.attempts[id]);
  }
}

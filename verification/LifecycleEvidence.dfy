/**
 Attempt lifecycle evidence: immutable envelopes and one sequence-checked head per producer stream.
 A hash is modelled by the value it is computed from, so equal hashes mean equal contents.
 */
module LifecycleEvidence {
  import opened Outcomes

  datatype Identity = Identity(repository: string, pipeline: string, workItem: string, workItemDigest: string,
                               generation: string, job: string, attemptOrdinal: int, retryOrdinal: int)

  /** The seven producer streams of an attempt. */
  datatype Kind =
    | DispatchPrepared | DispatchSubmitted | HostExecution | RelayResult
    | GateValidation | RevisionDisposition | PublicationReview

  datatype ClosedStatus = Open | Final | NotApplicable

  datatype Execution = Imported | Pending | Running | Completed | Failed | Interrupted
  datatype Relayed = RelayDone | RelayNotApplicable
  datatype Validation = Passed | ValidationFailed | ValidationBlocked | ValidationMissing | ValidationConflict
  datatype Revision = Queued | Exhausted | RevisionBlocked | RevisionNotApplicable | RevisionMissing | RevisionConflict
  datatype Review =
    | AwaitingReview | Drafted | Merged | Rejected | TerminalNoPublication
    | ReviewBlocked | ReviewNotApplicable | ReviewMissing | ReviewConflict

  /** The accepted terminal reason codes. */
  datatype Reason =
    | DraftedV1 | MergedVerifiedV1 | NotRequiredV1 | OutOfScopeV1
    | DuplicateOrObsoleteV1 | FounderDeclinedV1 | ContractLimitV1 | NoValidRepairV1

  datatype Disposition =
    | InFlight | SuccessDrafted | SuccessMerged | NoPublication | ItemRejected | RevisionExhausted
    | EvidenceMissing | ExecutionFailed | EvidenceConflicting | ValidationIsBlocked
    | RevisionIsBlocked | PublicationIsBlocked | UnknownTerminalReason

  predicate IsRevisionReason(r: Reason) { r.ContractLimitV1? || r.NoValidRepairV1? }

  /** The publication disposition a reason code stands for; revision reasons stand for none. */
  function ReviewOf(r: Reason): Option<Review> {
    match r
    case DraftedV1 => Some(Drafted)
    case MergedVerifiedV1 => Some(Merged)
    case NotRequiredV1 | OutOfScopeV1 => Some(TerminalNoPublication)
    case DuplicateOrObsoleteV1 | FounderDeclinedV1 => Some(Rejected)
    case ContractLimitV1 | NoValidRepairV1 => None
  }

  function DispositionOf(r: Reason): Disposition {
    match r
    case DraftedV1 => SuccessDrafted
    case MergedVerifiedV1 => SuccessMerged
    case NotRequiredV1 | OutOfScopeV1 => NoPublication
    case DuplicateOrObsoleteV1 | FounderDeclinedV1 => ItemRejected
    case ContractLimitV1 | NoValidRepairV1 => RevisionExhausted
  }

  datatype Source =
    | HostPath(path: string)
    | GitRef(repository: string, ref: string, commit: string, refPath: string, sha: string)

  datatype Payload =
    | PreparedPayload(pipeline: string, workItem: string, workItemDigest: string, generation: string,
                      intentSha: Option<string>, slotId: string, desiredCapacity: int, activeRunning: int, activeQueued: int)
    | SubmittedPayload(feedCommit: Option<string>, feedPath: Option<string>, jobSha: Option<string>)
    | HostPayload(execution: Execution, archivePath: Option<string>, errorClass: Option<string>)
    | RelayPayload(relayed: Relayed, relayedCommit: Option<string>, canonicalSha: Option<string>,
                   sourceReportSha: Option<string>, complete: bool)
    | GatePayload(validation: Validation, state: Option<string>, contractSha: Option<string>,
                  gateReportSha: Option<string>, gateCommit: Option<string>)
    | RevisionPayload(revision: Revision, descendant: Option<string>, gateSha: Option<string>,
                      jobsCommit: Option<string>, revisionReason: Option<Reason>)
    | ReviewPayload(review: Review, reviewReason: Option<Reason>, draftPr: Option<string>, mergedPr: Option<string>,
                    branch: Option<string>, productCommit: Option<string>, mergeCommit: Option<string>,
                    defaultBranch: Option<string>, resultsCommit: Option<string>)

  function KindOf(p: Payload): Kind {
    match p
    case PreparedPayload(_, _, _, _, _, _, _, _, _) => DispatchPrepared
    case SubmittedPayload(_, _, _) => DispatchSubmitted
    case HostPayload(_, _, _) => HostExecution
    case RelayPayload(_, _, _, _, _) => RelayResult
    case GatePayload(_, _, _, _, _) => GateValidation
    case RevisionPayload(_, _, _, _, _) => RevisionDisposition
    case ReviewPayload(_, _, _, _, _, _, _, _, _) => PublicationReview
  }

  // ---- validation ----

  predicate IsHex(s: string, length: nat) {
    |s| == length && forall i :: 0 <= i < |s| ==> s[i] in "0123456789abcdef"
  }

  predicate IsSha256(s: string) { IsHex(s, 64) }
  predicate IsCommit(s: string) { IsHex(s, 40) }

  predicate ShaOrNull(s: Option<string>) { s.Some? ==> IsSha256(s.value) }
  predicate CommitOrNull(s: Option<string>) { s.Some? ==> IsCommit(s.value) }
  predicate HasSha(s: Option<string>) { s.Some? && IsSha256(s.value) }
  predicate HasCommit(s: Option<string>) { s.Some? && IsCommit(s.value) }
  predicate HasText(s: Option<string>) { s.Some? && s.value != "" }
  predicate TextOrNull(s: Option<string>) { s.Some? ==> s.value != "" }

  predicate ValidIdentity(i: Identity) {
    && i.repository != "" && i.pipeline != "" && i.workItem != "" && i.generation != "" && i.job != ""
    && i.attemptOrdinal >= 1 && i.retryOrdinal >= 0 && IsSha256(i.workItemDigest)
  }

  predicate ValidClosure(final: bool, closed: ClosedStatus) { final <==> !closed.Open? }

  predicate ValidHost(p: Payload, closed: ClosedStatus)
    requires p.HostPayload?
  {
    match p.execution
    case Imported | Pending | Running => closed.Open? && p.archivePath.None? && p.errorClass.None?
    case Completed => closed.Final? && HasText(p.archivePath) && p.errorClass.None?
    case Failed | Interrupted => closed.Final? && HasText(p.archivePath) && HasText(p.errorClass)
  }

  predicate ValidRelay(p: Payload, closed: ClosedStatus)
    requires p.RelayPayload?
  {
    match p.relayed
    case RelayDone =>
      closed.Final? && HasCommit(p.relayedCommit) && HasSha(p.canonicalSha) && HasSha(p.sourceReportSha) && p.complete
    case RelayNotApplicable =>
      closed.NotApplicable? && p.relayedCommit.None? && p.canonicalSha.None? && p.sourceReportSha.None? && !p.complete
  }

  predicate ValidGate(p: Payload, closed: ClosedStatus)
    requires p.GatePayload?
  {
    && closed.Final?
    && ShaOrNull(p.contractSha) && ShaOrNull(p.gateReportSha) && CommitOrNull(p.gateCommit)
    && (p.validation.Passed? || p.validation.ValidationFailed? ==>
          && HasSha(p.contractSha) && HasSha(p.gateReportSha) && HasCommit(p.gateCommit)
          && p.state == Some(if p.validation.Passed? then "candidate_passed" else "candidate_failed"))
  }

  predicate ValidRevision(p: Payload, closed: ClosedStatus)
    requires p.RevisionPayload?
  {
    && TextOrNull(p.descendant) && ShaOrNull(p.gateSha) && CommitOrNull(p.jobsCommit)
    && (p.revisionReason.Some? && IsRevisionReason(p.revisionReason.value) ==> p.revision.Exhausted?)
    && match p.revision
       case Queued =>
         closed.Final? && HasText(p.descendant) && HasSha(p.gateSha) && HasCommit(p.jobsCommit) && p.revisionReason.None?
       case RevisionNotApplicable =>
         closed.NotApplicable? && p.descendant.None? && p.jobsCommit.None? && p.revisionReason.None? && HasSha(p.gateSha)
       case Exhausted =>
         closed.Final? && p.revisionReason.Some? && IsRevisionReason(p.revisionReason.value)
       case RevisionBlocked | RevisionMissing | RevisionConflict => closed.Final?
  }

  predicate NoReviewProof(p: Payload)
    requires p.ReviewPayload?
  {
    p.reviewReason.None? && p.draftPr.None? && p.branch.None? && p.productCommit.None? && p.resultsCommit.None?
  }

  predicate ValidReview(p: Payload, closed: ClosedStatus)
    requires p.ReviewPayload?
  {
    && TextOrNull(p.draftPr) && TextOrNull(p.branch) && CommitOrNull(p.productCommit) && CommitOrNull(p.resultsCommit)
    && (p.reviewReason.Some? ==> ReviewOf(p.reviewReason.value) == Some(p.review))
    && match p.review
       case AwaitingReview => closed.Open? && NoReviewProof(p)
       case Drafted =>
         && closed.Final? && p.reviewReason == Some(DraftedV1) && HasText(p.draftPr) && HasText(p.branch)
         && HasCommit(p.productCommit) && HasCommit(p.resultsCommit)
       case Merged =>
         && closed.Final? && p.reviewReason == Some(MergedVerifiedV1) && HasText(p.mergedPr) && HasText(p.branch)
         && HasText(p.defaultBranch) && HasCommit(p.productCommit) && HasCommit(p.mergeCommit) && HasCommit(p.resultsCommit)
       case Rejected | TerminalNoPublication => closed.Final? && p.reviewReason.Some?
       case ReviewNotApplicable => closed.NotApplicable? && NoReviewProof(p)
       case ReviewBlocked | ReviewMissing | ReviewConflict => closed.Final?
  }

  predicate ValidPayload(p: Payload, identity: Identity, source: Source, closed: ClosedStatus) {
    match p
    case PreparedPayload(pipeline, workItem, digest, generation, intent, slot, capacity, running, queued) =>
      && closed.Final? && ShaOrNull(intent) && slot != "" && capacity == 1 && running >= 0 && queued >= 0
      && pipeline == identity.pipeline && workItem == identity.workItem
      && digest == identity.workItemDigest && generation == identity.generation
    case SubmittedPayload(commit, path, sha) =>
      && closed.Final? && source.GitRef?
      && commit == Some(source.commit) && path == Some(source.refPath) && sha == Some(source.sha)
    case HostPayload(_, _, _) => ValidHost(p, closed)
    case RelayPayload(_, _, _, _, _) => ValidRelay(p, closed)
    case GatePayload(_, _, _, _, _) => ValidGate(p, closed)
    case RevisionPayload(_, _, _, _, _) => ValidRevision(p, closed)
    case ReviewPayload(_, _, _, _, _, _, _, _, _) => ValidReview(p, closed)
  }

  predicate ValidSource(source: Source, sourceSha: string) {
    match source
    case HostPath(path) => path != "" && IsSha256(sourceSha)
    case GitRef(repository, ref, commit, path, sha) =>
      repository != "" && ref != "" && IsCommit(commit) && path != "" && IsSha256(sha) && sha == sourceSha
  }

  // ---- envelopes and heads ----

  /** What an evidence id is computed from. */
  datatype Seed = Seed(identity: Identity, sequence: nat, sourceSha: string, payload: Payload,
                       final: bool, closed: ClosedStatus)

  datatype Envelope = Envelope(id: Seed, source: Source, observedAt: string)

  /** A head names one envelope of its stream by sequence, id and content hash. */
  datatype Head = Head(sequence: nat, id: Seed, sha: Envelope, final: bool, closed: ClosedStatus)

  datatype Stream = Stream(identity: Identity, kind: Kind)

  /** The envelope files, named by evidence id, and the head files, one per stream. */
  datatype Store = Store(envelopes: map<Seed, Envelope>, heads: map<Stream, Head>)

  const EMPTY_STORE := Store(map[], map[])

  /** One call of the emitter; `dies` stops it between its two writes. */
  datatype Emission = Emission(identity: Identity, payload: Payload, source: Source, sourceSha: string,
                               sequence: int, final: bool, closed: ClosedStatus, observedAt: string, dies: bool)

  datatype EmitError = Invalid | ImmutableConflict | HeadConflict | Died

  predicate ValidEmission(e: Emission) {
    && ValidIdentity(e.identity) && e.sequence >= 1 && ValidClosure(e.final, e.closed)
    && ValidSource(e.source, e.sourceSha) && ValidPayload(e.payload, e.identity, e.source, e.closed)
  }

  function SeedOf(e: Emission): Seed
    requires e.sequence >= 1
  {
    Seed(e.identity, e.sequence, e.sourceSha, e.payload, e.final, e.closed)
  }

  function EnvelopeOf(e: Emission): Envelope
    requires e.sequence >= 1
  {
    Envelope(SeedOf(e), e.source, e.observedAt)
  }

  function HeadOf(e: Emission): Head
    requires e.sequence >= 1
  {
    Head(e.sequence, SeedOf(e), EnvelopeOf(e), e.final, e.closed)
  }

  function StreamOf(e: Emission): Stream { Stream(e.identity, KindOf(e.payload)) }

  /** Whether a new head may follow the current one. */
  predicate HeadMayFollow(current: Option<Head>, next: Head) {
    match current
    case None => next.sequence == 1
    case Some(head) =>
      if !head.closed.Open? then next == head
      else if next.sequence == head.sequence then next == head
      else next.sequence == head.sequence + 1
  }

  function HeadAt(s: Store, stream: Stream): Option<Head> {
    if stream in s.heads then Some(s.heads[stream]) else None
  }

  /** The emitter's effect on the store, write by write, and what it reports. */
  function Emit(s: Store, e: Emission): (Store, Result<Head, EmitError>) {
    if !ValidEmission(e) then (s, Err(Invalid))
    else
      var id := SeedOf(e);
      if id in s.envelopes && s.envelopes[id] != EnvelopeOf(e) then (s, Err(ImmutableConflict))
      else
        var written := s.(envelopes := s.envelopes[id := EnvelopeOf(e)]);
        if e.dies then (written, Err(Died))
        else if !HeadMayFollow(HeadAt(s, StreamOf(e)), HeadOf(e)) then (written, Err(HeadConflict))
        else (written.(heads := s.heads[StreamOf(e) := HeadOf(e)]), Ok(HeadOf(e)))
  }

  function Run(s: Store, es: seq<Emission>): Store
    decreases |es|
  {
    if es == [] then s else Run(Emit(s, es[0]).0, es[1..])
  }

  /** The evidence directories of one host. */
  class EvidenceFiles {
    var envelopes: map<Seed, Envelope>
    var heads: map<Stream, Head>

    function Contents(): Store
      reads this
    {
      Store(envelopes, heads)
    }

    constructor ()
      ensures Contents() == EMPTY_STORE
    {
      envelopes, heads := map[], map[];
    }

    method EmitLifecycleEvidence(e: Emission) returns (r: Result<Head, EmitError>)
      modifies this
      ensures (Contents(), r) == Emit(old(Contents()), e)
    {
      if !ValidEmission(e) {
        return Err(Invalid);
      }
      var wrote := WriteImmutable(SeedOf(e), EnvelopeOf(e));
      if !wrote {
        return Err(ImmutableConflict);
      }
      if e.dies {
        return Err(Died);
      }
      var replaced := ReplaceHead(StreamOf(e), HeadOf(e));
      if !replaced {
        return Err(HeadConflict);
      }
      return Ok(HeadOf(e));
    }

    method WriteImmutable(id: Seed, envelope: Envelope) returns (ok: bool)
      modifies this`envelopes
      ensures ok <==> (id in old(envelopes) ==> old(envelopes)[id] == envelope)
      ensures envelopes == if ok then old(envelopes)[id := envelope] else old(envelopes)
    {
      if id in envelopes {
        ok := envelopes[id] == envelope;
        if ok {
          assert envelopes == envelopes[id := envelope];
        }
        return;
      }
      envelopes := envelopes[id := envelope];
      return true;
    }

    method ReplaceHead(stream: Stream, head: Head) returns (ok: bool)
      modifies this`heads
      ensures ok <==> HeadMayFollow(HeadAt(old(Contents()), stream), head)
      ensures heads == if ok then old(heads)[stream := head] else old(heads)
    {
      if stream in heads {
        var current := heads[stream];
        if !current.closed.Open? {
          if head != current {
            return false;
          }
        } else if head.sequence < current.sequence || head.sequence > current.sequence + 1 {
          return false;
        } else if head.sequence == current.sequence && head != current {
          return false;
        }
      } else if head.sequence != 1 {
        return false;
      }
      heads := heads[stream := head];
      return true;
    }
  }

  // ---- stream discipline ----

  ghost predicate HeadSound(s: Store, stream: Stream)
    requires stream in s.heads
  {
    var head := s.heads[stream];
    && head.id in s.envelopes && s.envelopes[head.id] == head.sha
    && head.sha.id == head.id && head.id.identity == stream.identity && KindOf(head.id.payload) == stream.kind
    && head.sequence == head.id.sequence && head.final == head.id.final && head.closed == head.id.closed
    && head.sequence >= 1 && ValidIdentity(stream.identity) && ValidClosure(head.final, head.closed)
    && ValidPayload(head.id.payload, stream.identity, head.sha.source, head.closed)
  }

  /** Some stored envelope of the stream carries this sequence number. */
  ghost predicate Witnessed(s: Store, stream: Stream, sequence: nat) {
    exists id :: id in s.envelopes && id.identity == stream.identity && KindOf(id.payload) == stream.kind && id.sequence == sequence
  }

  /** Every head names its own stored envelope, and every earlier sequence number was written too. */
  ghost predicate Sound(s: Store) {
    && (forall stream :: stream in s.heads ==> HeadSound(s, stream))
    && (forall id :: id in s.envelopes ==> s.envelopes[id].id == id)
    && (forall stream, k :: stream in s.heads && 1 <= k <= s.heads[stream].sequence ==> Witnessed(s, stream, k))
  }

  lemma EmitKeepsSound(s: Store, e: Emission)
    requires Sound(s)
    ensures Sound(Emit(s, e).0)
  {
    var (t, r) := Emit(s, e);
    if ValidEmission(e) && t != s {
      EmitHeadsSound(s, e);
      EmitKeepsWitnesses(s, e);
    }
  }

  lemma EmitKeepsWitnesses(s: Store, e: Emission)
    requires Sound(s) && ValidEmission(e)
    ensures
      var t := Emit(s, e).0;
      forall stream, k :: stream in t.heads && 1 <= k <= t.heads[stream].sequence ==> Witnessed(t, stream, k)
  {
    hide HeadSound, ValidEmission;
    var (t, r) := Emit(s, e);
    forall stream, k | stream in t.heads && 1 <= k <= t.heads[stream].sequence
      ensures Witnessed(t, stream, k)
    {
      if stream == StreamOf(e) && r.Ok? && k == e.sequence {
        assert SeedOf(e) in t.envelopes;
      } else {
        assert stream in s.heads && k <= s.heads[stream].sequence;
        assert Witnessed(s, stream, k);
        var id :| id in s.envelopes && id.identity == stream.identity && KindOf(id.payload) == stream.kind && id.sequence == k;
        assert id in t.envelopes;
      }
    }
  }

  lemma EmitHeadsSound(s: Store, e: Emission)
    requires Sound(s) && ValidEmission(e)
    ensures
      var t := Emit(s, e).0;
      && (forall stream :: stream in t.heads ==> HeadSound(t, stream))
      && (forall id :: id in t.envelopes ==> t.envelopes[id].id == id)
  {
    var t := Emit(s, e).0;
    if Emit(s, e).1.Ok? {
      NewHeadIsSound(s, e);
    }
    EmitGrows(s, e);
    assert forall id :: id in t.envelopes ==> t.envelopes[id].id == id;
    hide Emit, HeadSound, ValidEmission;
    forall stream | stream in t.heads ensures HeadSound(t, stream) {
      if stream in s.heads && t.heads[stream] == s.heads[stream] {
        OldHeadStays(s, t, stream);
      }
    }
  }

  /** Envelopes stay, and a head that is new or other is the emission's own. */
  lemma EmitGrows(s: Store, e: Emission)
    requires ValidEmission(e)
    ensures
      var (t, r) := Emit(s, e);
      && (forall id :: id in s.envelopes ==> id in t.envelopes && t.envelopes[id] == s.envelopes[id])
      && (forall stream :: stream in t.heads && !(stream in s.heads && t.heads[stream] == s.heads[stream]) ==> r.Ok? && stream == StreamOf(e))
  {
    hide ValidEmission;
  }

  lemma OldHeadStays(s: Store, t: Store, stream: Stream)
    requires stream in s.heads && HeadSound(s, stream) && stream in t.heads && t.heads[stream] == s.heads[stream]
    requires forall id :: id in s.envelopes ==> id in t.envelopes && t.envelopes[id] == s.envelopes[id]
    ensures HeadSound(t, stream)
  {
    hide ValidIdentity, ValidPayload, ValidClosure;
  }

  lemma NewHeadIsSound(s: Store, e: Emission)
    requires ValidEmission(e) && Emit(s, e).1.Ok?
    ensures StreamOf(e) in Emit(s, e).0.heads && HeadSound(Emit(s, e).0, StreamOf(e))
  {
    hide ValidIdentity, ValidPayload, ValidSource;
  }

  /** Every store reached from empty directories by any emissions, crashes included, is sound. */
  lemma {:induction false} RunsAreSound(s: Store, es: seq<Emission>)
    requires Sound(s)
    ensures Sound(Run(s, es))
    decreases |es|
  {
    if es != [] {
      EmitKeepsSound(s, es[0]);
      RunsAreSound(Emit(s, es[0]).0, es[1..]);
    }
  }

  /** One emission moves at most its own head, by starting it at 1 or advancing an open head by one. */
  lemma EmitMovesOneHead(s: Store, e: Emission, stream: Stream)
    ensures
      var (t, r) := Emit(s, e);
      && (r.Err? ==> t.heads == s.heads)
      && (HeadAt(t, stream) != HeadAt(s, stream) ==>
            && stream == StreamOf(e) && r == Ok(HeadOf(e)) && HeadAt(t, stream) == Some(HeadOf(e))
            && match HeadAt(s, stream)
               case None => e.sequence == 1
               case Some(head) => head.closed.Open? && e.sequence == head.sequence + 1)
  {}

  /** The heads a stream takes, one after the other, over a run. */
  function HeadsTaken(s: Store, es: seq<Emission>, stream: Stream): seq<Head>
    decreases |es|
  {
    if es == [] then []
    else
      var t := Emit(s, es[0]).0;
      (if HeadAt(t, stream).Some? && HeadAt(t, stream) != HeadAt(s, stream) then [HeadAt(t, stream).value] else [])
      + HeadsTaken(t, es[1..], stream)
  }

  function NextSequence(head: Option<Head>): nat { if head.None? then 1 else head.value.sequence + 1 }

  /** Heads that count up by one from where the stream stood, none of them after a closed one. */
  predicate CountUp(start: Option<Head>, taken: seq<Head>) {
    && (forall i :: 0 <= i < |taken| ==> taken[i].sequence == NextSequence(start) + i)
    && (forall i :: 0 <= i < |taken| - 1 ==> taken[i].closed.Open?)
    && (start.Some? && !start.value.closed.Open? ==> taken == [])
  }

  function LastHead(start: Option<Head>, taken: seq<Head>): Option<Head> { if taken == [] then start else Some(taken[|taken| - 1]) }

  lemma OneMore(start: Option<Head>, head: Head, rest: seq<Head>)
    requires CountUp(Some(head), rest) && head.sequence == NextSequence(start) && (start.Some? ==> start.value.closed.Open?)
    ensures CountUp(start, [head] + rest) && LastHead(start, [head] + rest) == LastHead(Some(head), rest)
  {
    var taken := [head] + rest;
    assert forall i :: 0 < i < |taken| ==> taken[i] == rest[i - 1];
  }

  /** Over any run the heads of a stream count up by one from where they stood, none follows a closed one, and the last one stands. */
  lemma {:induction false} HeadsCountUp(s: Store, es: seq<Emission>, stream: Stream)
    ensures CountUp(HeadAt(s, stream), HeadsTaken(s, es, stream))
    ensures HeadAt(Run(s, es), stream) == LastHead(HeadAt(s, stream), HeadsTaken(s, es, stream))
    decreases |es|
  {
    if es != [] {
      EmitMovesOneHead(s, es[0], stream);
      var t := Emit(s, es[0]).0;
      var rest := HeadsTaken(t, es[1..], stream);
      assert [] + rest == rest;
      hide Emit, HeadAt, CountUp, LastHead;
      HeadsCountUp(t, es[1..], stream);
      if HeadAt(t, stream) != HeadAt(s, stream) {
        OneMore(HeadAt(s, stream), HeadAt(t, stream).value, rest);
      }
    }
  }

  /** Closed heads never move again, and no envelope is ever rewritten or lost, over any run. */
  lemma {:induction false} RunsOnlyExtend(s: Store, es: seq<Emission>)
    ensures forall stream :: stream in s.heads && !s.heads[stream].closed.Open? ==>
              stream in Run(s, es).heads && Run(s, es).heads[stream] == s.heads[stream]
    ensures forall stream :: stream in s.heads ==>
              stream in Run(s, es).heads && s.heads[stream].sequence <= Run(s, es).heads[stream].sequence
    ensures forall id :: id in s.envelopes ==> id in Run(s, es).envelopes && Run(s, es).envelopes[id] == s.envelopes[id]
    decreases |es|
  {
    if es != [] {
      var t := Emit(s, es[0]).0;
      RunsOnlyExtend(t, es[1..]);
    }
  }

  /**
   Evidence emitted again, whatever was emitted in between, changes nothing: it is acknowledged while its
   head is still the stream's, and refused once the stream has moved on.
   */
  lemma ReemissionChangesNothing(s: Store, e: Emission, es: seq<Emission>)
    requires Emit(s, e).1.Ok?
    ensures
      var t := Run(Emit(s, e).0, es);
      Emit(t, e) == (t, if HeadAt(t, StreamOf(e)) == Some(HeadOf(e)) then Ok(HeadOf(e)) else Err(HeadConflict))
  {
    var u := Emit(s, e).0;
    var t := Run(u, es);
    RunsOnlyExtend(u, es);
    assert u.envelopes[SeedOf(e)] == EnvelopeOf(e) && u.heads[StreamOf(e)] == HeadOf(e);
    hide Run;
    assert t.envelopes[SeedOf(e) := EnvelopeOf(e)] == t.envelopes;
    if HeadAt(t, StreamOf(e)) == Some(HeadOf(e)) {
      assert t.heads[StreamOf(e) := HeadOf(e)] == t.heads;
    }
  }

  /** An emission retried after dying between its two writes does what it would have done at once. */
  lemma CrashedEmissionIsFinished(s: Store, e: Emission)
    ensures Emit(Emit(s, e.(dies := true)).0, e) == Emit(s, e)
  {
    if ValidEmission(e) {
      var t := Emit(s, e.(dies := true)).0;
      assert t.heads == s.heads;
      assert t.envelopes[SeedOf(e) := EnvelopeOf(e)] == s.envelopes[SeedOf(e) := EnvelopeOf(e)];
    }
  }

  /** A refused head update still leaves its envelope behind; only a bad or conflicting envelope writes nothing. */
  lemma RefusalLeavesEnvelope(s: Store, e: Emission)
    requires Emit(s, e).1.Err?
    ensures
      var (t, r) := Emit(s, e);
      && t.heads == s.heads
      && (r.error.HeadConflict? || r.error.Died? ==> SeedOf(e) in t.envelopes && t.envelopes[SeedOf(e)] == EnvelopeOf(e))
      && (r.error.Invalid? || r.error.ImmutableConflict? ==> t == s)
  {}

  /**
   Once its envelope is written, by an emission that was accepted, refused for its head or cut short, evidence
   restated under the same id is an immutable conflict exactly when its time or source path differs, whatever
   is emitted between.
   */
  lemma RestatedObservationConflicts(s: Store, e: Emission, es: seq<Emission>, again: Emission)
    requires Emit(s, e).1.Ok? || Emit(s, e).1.error.HeadConflict? || Emit(s, e).1.error.Died?
    requires ValidEmission(again) && SeedOf(again) == SeedOf(e)
    ensures
      var t := Run(Emit(s, e).0, es);
      && (Emit(t, again).1 == Err(ImmutableConflict) <==> EnvelopeOf(again) != EnvelopeOf(e))
      && (EnvelopeOf(again) != EnvelopeOf(e) ==> Emit(t, again).0 == t)
  {
    if Emit(s, e).1.Err? {
      RefusalLeavesEnvelope(s, e);
    }
    RunsOnlyExtend(Emit(s, e).0, es);
    hide Run;
  }

  /** Once a stream is closed as drafted, merged evidence on it is refused at any sequence number, whatever is emitted between. */
  lemma MergedEvidenceRefusedAfterDraft(s: Store, draft: Emission, es: seq<Emission>, later: Emission)
    requires Emit(s, draft).1.Ok? && StreamOf(later) == StreamOf(draft)
    requires draft.payload.ReviewPayload? && draft.payload.review.Drafted?
    requires later.payload.ReviewPayload? && later.payload.review.Merged?
    ensures
      var t := Run(Emit(s, draft).0, es);
      && HeadAt(t, StreamOf(draft)) == Some(HeadOf(draft))
      && Emit(t, later).1.Err? && Emit(t, later).0.heads == t.heads
  {
    RunsOnlyExtend(Emit(s, draft).0, es);
    hide Run;
  }

  /**
   An emission is accepted exactly if it is valid and lives, nothing else is stored under its id, and it either repeats
   the head of its stream or is the next in number on a stream that is not closed.
   */
  lemma AcceptedExactly(s: Store, e: Emission)
    ensures Emit(s, e).1.Ok? <==>
      && ValidEmission(e) && !e.dies && (SeedOf(e) in s.envelopes ==> s.envelopes[SeedOf(e)] == EnvelopeOf(e))
      && (HeadAt(s, StreamOf(e)) == Some(HeadOf(e))
          || (e.sequence == NextSequence(HeadAt(s, StreamOf(e))) && (StreamOf(e) in s.heads ==> s.heads[StreamOf(e)].closed.Open?)))
  {
    hide ValidPayload, ValidIdentity, ValidSource, ValidClosure;
  }

  /** What a payload claims comes with what proves it, and payloads that claim nothing carry nothing. */
  predicate CarriesProof(p: Payload, closed: ClosedStatus) {
    match p
    case HostPayload(execution, archive, error) =>
      if execution in {Imported, Pending, Running} then closed.Open? && archive.None? && error.None?
      else closed.Final? && HasText(archive) && (if execution.Completed? then error.None? else HasText(error))
    case RelayPayload(relayed, commit, sha, report, complete) =>
      if relayed.RelayDone? then closed.Final? && HasCommit(commit) && HasSha(sha) && HasSha(report) && complete
      else closed.NotApplicable? && commit.None? && sha.None? && report.None? && !complete
    case GatePayload(validation, state, contract, report, commit) =>
      closed.Final? && (validation in {Passed, ValidationFailed} ==>
        HasSha(contract) && HasSha(report) && HasCommit(commit) && state == Some(if validation.Passed? then "candidate_passed" else "candidate_failed"))
    case RevisionPayload(revision, descendant, gate, commit, reason) =>
      && (revision.Queued? ==> closed.Final? && HasText(descendant) && HasSha(gate) && HasCommit(commit))
      && (revision.RevisionNotApplicable? ==> closed.NotApplicable? && descendant.None? && commit.None? && HasSha(gate))
      && (revision.Exhausted? ==> closed.Final? && reason in {Some(ContractLimitV1), Some(NoValidRepairV1)})
      && (reason in {Some(ContractLimitV1), Some(NoValidRepairV1)} ==> revision.Exhausted?)
    case ReviewPayload(review, reason, draft, merged, branch, product, merge, default, results) =>
      && (review.AwaitingReview? <==> closed.Open?)
      && (review in {Drafted, Merged} ==> closed.Final? && HasText(branch) && HasCommit(product) && HasCommit(results))
      && (review.Drafted? ==> reason == Some(DraftedV1) && HasText(draft))
      && (review.Merged? ==> reason == Some(MergedVerifiedV1) && HasText(merged) && HasText(default) && HasCommit(merge))
      && (review.Rejected? ==> reason in {Some(DuplicateOrObsoleteV1), Some(FounderDeclinedV1)})
      && (review.TerminalNoPublication? ==> reason in {Some(NotRequiredV1), Some(OutOfScopeV1)})
      && (review in {AwaitingReview, ReviewNotApplicable} ==> reason.None? && draft.None? && branch.None? && product.None? && results.None?)
    case PreparedPayload(_, _, _, _, _, slot, capacity, _, _) => closed.Final? && slot != "" && capacity == 1
    case SubmittedPayload(commit, path, sha) => closed.Final? && commit.Some? && path.Some? && sha.Some?
  }

  lemma ValidCarriesProof(p: Payload, identity: Identity, source: Source, closed: ClosedStatus)
    requires ValidPayload(p, identity, source, closed)
    ensures CarriesProof(p, closed)
  {
    hide HasText, HasSha, HasCommit, ShaOrNull, CommitOrNull, TextOrNull;
  }

  /** Over any run, with crashes anywhere, the payload each head stands for carries its proof, and prepared ones name their attempt. */
  lemma HeadsCarryProof(es: seq<Emission>, stream: Stream)
    ensures
      var t := Run(EMPTY_STORE, es);
      stream in t.heads ==>
        && CarriesProof(t.heads[stream].id.payload, t.heads[stream].closed)
        && (stream.kind.DispatchPrepared? ==>
          var p := t.heads[stream].id.payload;
          && p.PreparedPayload? && p.pipeline == stream.identity.pipeline && p.workItem == stream.identity.workItem
          && p.workItemDigest == stream.identity.workItemDigest && p.generation == stream.identity.generation)
  {
    assert Sound(EMPTY_STORE);
    RunsAreSound(EMPTY_STORE, es);
    var t := Run(EMPTY_STORE, es);
    if stream in t.heads {
      assert HeadSound(t, stream);
      ValidCarriesProof(t.heads[stream].id.payload, stream.identity, t.heads[stream].sha.source, t.heads[stream].closed);
      hide CarriesProof;
    }
  }
}

/** What refill may conclude about an attempt, and how far such a conclusion is up to date. */
module CanonicalClassification {
  import opened Outcomes
  import opened Collections
  import opened LifecycleEvidence
  import opened RevisionWalk
  import opened LifecycleReducer
  import opened TerminalityLoss
  import opened LifecycleJournal
  import opened LifecycleRecovery

  // ---- the evidence-set digest ----

  datatype KindHead = KindHead(kind: Kind, head: Head)

  /** Kinds in the order of their names. */
  function Rank(kind: Kind): nat {
    match kind
    case DispatchPrepared => 0
    case DispatchSubmitted => 1
    case GateValidation => 2
    case HostExecution => 3
    case PublicationReview => 4
    case RelayResult => 5
    case RevisionDisposition => 6
  }

  predicate NoDuplicateKind(heads: seq<KindHead>) {
    forall i, j :: 0 <= i < j < |heads| ==> heads[i].kind != heads[j].kind
  }

  predicate Ascending(heads: seq<KindHead>) {
    forall i, j :: 0 <= i < j < |heads| ==> Rank(heads[i].kind) < Rank(heads[j].kind)
  }

  function Insert(h: KindHead, heads: seq<KindHead>): (r: seq<KindHead>)
    requires Ascending(heads) && forall x :: x in heads ==> x.kind != h.kind
    ensures Ascending(r) && forall x :: x in r <==> x == h || x in heads
  {
    if heads == [] then [h]
    else if Rank(h.kind) < Rank(heads[0].kind) then [h] + heads
    else
      RankIsInjective(h.kind, heads[0].kind);
      var rest := Insert(h, heads[1..]);
      assert forall x :: x in heads[1..] ==> Rank(heads[0].kind) < Rank(x.kind);
      [heads[0]] + rest
  }

  function SortByKind(heads: seq<KindHead>): (r: seq<KindHead>)
    requires NoDuplicateKind(heads)
    ensures Ascending(r) && forall x :: x in r <==> x in heads
  {
    if heads == [] then []
    else
      assert forall x :: x in heads[1..] ==> x.kind != heads[0].kind;
      Insert(heads[0], SortByKind(heads[1..]))
  }

  datatype CanonicalFault = DuplicateHead | SeveralSnapshots | StaleSnapshot

  /** The evidence set an attempt's digest is computed over; a stream listed twice is an error. */
  function EvidenceSet(heads: seq<KindHead>): Result<seq<KindHead>, CanonicalFault> {
    if NoDuplicateKind(heads) then Ok(SortByKind(heads)) else Err(DuplicateHead)
  }

  lemma RankIsInjective(a: Kind, b: Kind)
    ensures Rank(a) == Rank(b) ==> a == b
  {}

  lemma {:induction false} AscendingUnique(a: seq<KindHead>, b: seq<KindHead>)
    requires Ascending(a) && Ascending(b) && forall x :: x in a <==> x in b
    ensures a == b
    decreases |a|
  {
    EmptyTogether(a, b);
    if a != [] {
      assert a[0] in b && b != [] && b[0] in a;
      assert a[0] == b[0];
      forall x ensures x in a[1..] <==> x in b[1..] {
        assert x in a <==> x == a[0] || x in a[1..];
        assert x in b <==> x == b[0] || x in b[1..];
        if x == a[0] {
          assert x !in a[1..] && x !in b[1..];
        }
      }
      AscendingUnique(a[1..], b[1..]);
    }
  }

  /** The digest does not depend on the order heads are listed in, and it pins exactly the heads listed. */
  lemma DigestIsOrderFree(a: seq<KindHead>, b: seq<KindHead>)
    requires NoDuplicateKind(a) && NoDuplicateKind(b)
    ensures EvidenceSet(a) == EvidenceSet(b) <==> forall x :: x in a <==> x in b
  {
    if forall x :: x in a <==> x in b {
      AscendingUnique(SortByKind(a), SortByKind(b));
    }
    if EvidenceSet(a) == EvidenceSet(b) {
      forall x ensures x in a <==> x in b {
        assert x in SortByKind(a) <==> x in SortByKind(b);
      }
    }
  }

  /** The listing shows exactly these heads, each once, in some order. */
  predicate Lists(listing: seq<KindHead>, heads: map<Kind, Head>) {
    && NoDuplicateKind(listing)
    && (forall x :: x in listing ==> x.kind in heads && heads[x.kind] == x.head)
    && (forall kind :: kind in heads ==> KindHead(kind, heads[kind]) in listing)
  }

  /** Comparing digests is comparing heads: however the heads are listed, digests agree exactly when the heads do. */
  lemma DigestIsOfHeads(a: seq<KindHead>, b: seq<KindHead>, heads: map<Kind, Head>, later: map<Kind, Head>)
    requires Lists(a, heads) && Lists(b, later)
    ensures EvidenceSet(a) == EvidenceSet(b) <==> heads == later
  {
    hide EvidenceSet;
    DigestIsOrderFree(a, b);
    if forall x :: x in a <==> x in b {
      forall kind ensures (kind in heads <==> kind in later) && (kind in heads ==> heads[kind] == later[kind]) {
        assert kind in heads ==> KindHead(kind, heads[kind]) in a;
        assert kind in later ==> KindHead(kind, later[kind]) in b;
      }
      assert heads == later;
    }
    if heads == later {
      forall x ensures x in a <==> x in b {
        assert x == KindHead(x.kind, x.head);
      }
    }
  }

  // ---- classification ----

  datatype Category = ItemTerminal | AttemptInFlight | Unknown

  datatype Verdict =
    | NoVerdict
    | MissingSnapshot
    | Classified(category: Category, snapshot: Snapshot)

  /** The attempt files that match the job, in this generation when one is given. */
  function Matching(d: Disk, job: string, generation: Option<string>): set<Identity> {
    set id | id in d.attempts && d.attempts[id].identity.job == job
             && (generation.None? || d.attempts[id].identity.generation == generation.value)
  }

  /** The snapshot, its heads and its watermark still agree. */
  predicate Fresh(s: Store, d: Disk, snapshot: Snapshot) {
    var id := snapshot.identity;
    && HeadsOf(s, id) == snapshot.evidence
    && id in d.watermarks && d.watermarks[id].evidence == snapshot.evidence && d.watermarks[id].snapshot == snapshot
  }

  function CategoryOf(snapshot: Snapshot): Category {
    if snapshot.action.ExcludeAndSelectNext? && snapshot.itemTerminal then ItemTerminal
    else if snapshot.terminality.StillInFlight? then AttemptInFlight
    else Unknown
  }

  /** The canonical classification of a job, read under the evidence lock after a recovery. */
  function Classify(s: Store, d: Disk, job: string, generation: Option<string>, required: bool): Result<Verdict, CanonicalFault> {
    var matches := Matching(d, job, generation);
    if |matches| > 1 then Err(SeveralSnapshots)
    else if matches == {} then Ok(if required then MissingSnapshot else NoVerdict)
    else
      assert forall a, b :: a in matches && b in matches ==> a == b by {
        forall a, b | a in matches && b in matches ensures a == b {
          SingletonIsUnique(matches, a, b);
        }
      }
      var id :| id in matches;
      var snapshot := d.attempts[id];
      if !Fresh(s, d, snapshot) then Err(StaleSnapshot)
      else Ok(Classified(CategoryOf(snapshot), snapshot))
  }

  /** The snapshot was reduced from the evidence set it records. */
  ghost predicate Reduced(snapshot: Snapshot) {
    exists proof, drafted :: snapshot == ReduceHeads(snapshot.identity, snapshot.evidence, proof, drafted)
  }

  ghost predicate AllReduced(d: Disk) {
    forall id, i :: id in d.journals && 0 <= i < |d.journals[id]| ==> Reduced(d.journals[id][i].body.snapshot)
  }

  lemma {:induction false} ReductionIsReduced(s: Store, id: Identity, proof: bool)
    ensures Reduced(Reduce(s, id, proof)) && Reduce(s, id, proof).evidence == HeadsOf(s, id) && Reduce(s, id, proof).identity == id
  {
    ReductionKeepsEvidence(id, HeadsOf(s, id), proof, DraftedFor(s, id));
  }

  lemma ReductionKeepsEvidence(id: Identity, heads: map<Kind, Head>, proof: bool, drafted: Option<Reason>)
    ensures ReduceHeads(id, heads, proof, drafted).evidence == heads && ReduceHeads(id, heads, proof, drafted).identity == id
  {
    CompletedKeepsEvidence(Base(id, heads).(phase := ExecutionArchived, outcome := ExecutionDone), heads, drafted);
    hide ReduceCompleted;
  }

  lemma CompletedKeepsEvidence(base: Snapshot, heads: map<Kind, Head>, drafted: Option<Reason>)
    ensures
      var r := ReduceCompleted(base, heads, drafted);
      r.evidence == base.evidence && r.identity == base.identity
  {
    var gate := PayloadIn(heads, GateValidation);
    if gate.Some? && gate.value.GatePayload? {
      var gated := base.(phase := ValidationRecorded, validation := Some(gate.value.validation));
      RejectedKeepsEvidence(gated, PayloadIn(heads, RevisionDisposition), drafted);
      PassedKeepsEvidence(gated, PayloadIn(heads, RevisionDisposition), PayloadIn(heads, PublicationReview));
      hide ReduceRejected, ReducePassed;
    }
  }

  lemma RejectedKeepsEvidence(gated: Snapshot, revision: Option<Payload>, drafted: Option<Reason>)
    ensures
      var r := ReduceRejected(gated, revision, drafted);
      r.evidence == gated.evidence && r.identity == gated.identity
  {}

  lemma PassedKeepsEvidence(gated: Snapshot, revision: Option<Payload>, review: Option<Payload>)
    ensures
      var r := ReducePassed(gated, revision, review);
      r.evidence == gated.evidence && r.identity == gated.identity
  {}

  lemma PublishKeepsReduced(d: Disk, snapshot: Snapshot, now: string, budget: nat)
    requires AllReduced(d) && Reduced(snapshot)
    ensures Publish(d, snapshot, now, budget).Ok? ==> AllReduced(Publish(d, snapshot, now, budget).value.disk)
  {
    hide Reduced, Materialize, Latest, NextTransition, JournalOf;
    var id := snapshot.identity;
    var latest := Latest(JournalOf(d, id));
    if latest.Ok? {
      var t := NextTransition(d, snapshot, latest.value, now);
      assert t.body.snapshot == snapshot by { NextRecords(d, snapshot, latest.value, now); }
      if latest.value.Some? {
        MaterializeWrites(d, id, latest.value.value, budget);
      }
      if budget > 0 {
        AppendingKeepsReduced(d, id, t);
        MaterializeWrites(d.(journals := d.journals[id := JournalOf(d, id) + [t]]), id, t, budget - 1);
      }
    }
  }

  lemma AppendingKeepsReduced(d: Disk, id: Identity, t: Transition)
    requires AllReduced(d) && Reduced(t.body.snapshot)
    ensures AllReduced(d.(journals := d.journals[id := JournalOf(d, id) + [t]]))
  {
    hide Reduced;
  }

  lemma NextRecords(d: Disk, snapshot: Snapshot, latest: Option<Transition>, now: string)
    ensures NextTransition(d, snapshot, latest, now).body.snapshot == snapshot
  {}

  /** Every snapshot a recorder session journals was reduced from the evidence it names. */
  lemma {:induction false} PublishingKeepsReduced(d: Disk, work: seq<Work>, budget: nat)
    requires AllReduced(d) && forall w :: w in work ==> Reduced(w.snapshot)
    ensures AllReduced(PublishEach(d, work, budget).disk)
    decreases |work|
  {
    hide Reduced, AllReduced, Publish;
    if work != [] {
      assert work[0] in work;
      PublishKeepsReduced(d, work[0].snapshot, work[0].now, budget);
      match Publish(d, work[0].snapshot, work[0].now, budget)
      case Err(_) => PublishingKeepsReduced(d, work[1..], budget);
      case Ok(After(next, None)) =>
      case Ok(After(next, Some(left))) => PublishingKeepsReduced(next, work[1..], left);
    }
  }

  lemma {:induction false} RecoveryKeepsReduced(d: Disk, order: seq<Identity>, budget: nat)
    requires AllReduced(d)
    ensures RecoverEach(d, order, budget).Ok? ==> AllReduced(RecoverEach(d, order, budget).value.disk)
    decreases |order|
  {
    hide Reduced;
    if order != [] {
      match RecoverOne(d, order[0], budget)
      case Err(_) =>
      case Ok(After(next, None)) =>
      case Ok(After(next, Some(left))) =>
        assert next.journals == d.journals;
        RecoveryKeepsReduced(next, order[1..], left);
    }
  }

  /** Everything a session records was reduced from some state of the evidence directories. */
  ghost predicate RecordsReductions(session: Session) {
    forall w :: w in session.work ==> exists s, id, proof :: w.snapshot == Reduce(s, id, proof)
  }

  /** So every journal that recorder sessions leave behind, killed anywhere, holds nothing but reductions. */
  lemma {:induction false} SessionsKeepReduced(d: Disk, sessions: seq<Session>)
    requires AllReduced(d) && forall session :: session in sessions ==> RecordsReductions(session)
    ensures RunSessions(d, sessions).Ok? ==> AllReduced(RunSessions(d, sessions).value)
    decreases |sessions|
  {
    hide AllReduced, RunSession;
    if sessions != [] {
      assert sessions[0] in sessions;
      SessionKeepsReduced(d, sessions[0]);
      match RunSession(d, sessions[0])
      case Err(_) =>
      case Ok(after) => SessionsKeepReduced(after.disk, sessions[1..]);
    }
  }

  lemma SessionKeepsReduced(d: Disk, session: Session)
    requires AllReduced(d) && RecordsReductions(session)
    ensures RunSession(d, session).Ok? ==> AllReduced(RunSession(d, session).value.disk)
  {
    hide AllReduced, RecoverEach, PublishEach, Reduce, Reduced;
    forall w | w in session.work ensures Reduced(w.snapshot) {
      var s, id, proof :| w.snapshot == Reduce(s, id, proof);
      ReductionIsReduced(s, id, proof);
    }
    RecoveryKeepsReduced(d, session.order, session.budget);
    match RecoverEach(d, session.order, session.budget)
    case Ok(After(next, Some(left))) => PublishingKeepsReduced(next, session.work, left);
    case _ =>
  }

  lemma RecordedDisksAreReduced(sessions: seq<Session>)
    requires forall session :: session in sessions ==> RecordsReductions(session)
    ensures RunSessions(EMPTY_DISK, sessions).Ok? ==> AllReduced(RunSessions(EMPTY_DISK, sessions).value)
  {
    SessionsKeepReduced(EMPTY_DISK, sessions);
  }

  // ---- how far a verdict is up to date ----

  /**
   The terminal verdict on these heads rests on something that holds now: the attempt's own streams, a
   completion report for a failed execution, or a drafted descendant of a queued revision.
   */
  ghost predicate StillRests(s: Store, id: Identity, proof: bool) {
    var heads := HeadsOf(s, id);
    || ReduceHeads(id, heads, false, None).itemTerminal
    || (FailedShape(heads) && proof)
    || (QueuedShape(heads) && DraftedFor(s, id).Some?)
  }

  lemma FailedWithoutProof(id: Identity, heads: map<Kind, Head>, drafted: Option<Reason>)
    requires FailedShape(heads)
    ensures ReduceHeads(id, heads, false, drafted) == ReduceHeads(id, heads, false, None)
  {}

  lemma QueuedTerminal(id: Identity, heads: map<Kind, Head>, proof: bool, drafted: Option<Reason>)
    requires QueuedShape(heads) && ReduceHeads(id, heads, proof, drafted).itemTerminal
    ensures drafted == Some(DraftedV1)
  {}

  /** A terminal reduction of the present heads, whatever it was made with, is today's verdict exactly if it still rests on something. */
  lemma AgreesExactly(s: Store, id: Identity, proof: bool, proof': bool, drafted': Option<Reason>)
    requires Sound(s) && ReduceHeads(id, HeadsOf(s, id), proof', drafted').itemTerminal
    ensures SameVerdict(Reduce(s, id, proof), ReduceHeads(id, HeadsOf(s, id), proof', drafted')) <==> StillRests(s, id, proof)
    ensures Reduce(s, id, proof).itemTerminal <==> StillRests(s, id, proof)
  {
    var heads := HeadsOf(s, id);
    HeadsOfAreSound(s, id);
    SoundKinds(id, heads);
    hide Sound, HeadsOf, DraftedFor, SoundHeads, ReduceHeads, QueuedShape, FailedShape;
    if ReduceHeads(id, heads, false, None).itemTerminal {
      OwnVerdictIsRead(id, heads, proof, DraftedFor(s, id));
      OwnVerdictIsRead(id, heads, proof', drafted');
    } else {
      ExternalTerminality(id, heads, proof', drafted');
      if QueuedShape(heads) {
        QueuedAgrees(s, id, proof, proof', drafted');
      } else {
        FailedAgrees(s, id, proof, drafted');
      }
    }
  }

  lemma OwnVerdictIsRead(id: Identity, heads: map<Kind, Head>, proof: bool, drafted: Option<Reason>)
    requires SoundHeads(id, heads) && ReduceHeads(id, heads, false, None).itemTerminal
    ensures SameVerdict(ReduceHeads(id, heads, proof, drafted), ReduceHeads(id, heads, false, None))
  {
    TerminalStreamsAreClosed(id, heads);
    hide ReduceHeads, SoundHeads, StreamsRead;
    SameStreamsSameVerdict(id, heads, heads, proof, drafted);
  }

  lemma QueuedAgrees(s: Store, id: Identity, proof: bool, proof': bool, drafted': Option<Reason>)
    requires Sound(s) && QueuedShape(HeadsOf(s, id)) && ReduceHeads(id, HeadsOf(s, id), proof', drafted').itemTerminal
    ensures SameVerdict(Reduce(s, id, proof), ReduceHeads(id, HeadsOf(s, id), proof', drafted')) <==> DraftedFor(s, id).Some?
    ensures Reduce(s, id, proof).itemTerminal <==> DraftedFor(s, id).Some?
    ensures !FailedShape(HeadsOf(s, id)) && !ReduceHeads(id, HeadsOf(s, id), false, None).itemTerminal
  {
    var heads := HeadsOf(s, id);
    QueuedTerminal(id, heads, proof', drafted');
    QueuedVerdict(id, heads, proof', drafted');
    QueuedWithoutDraft(id, heads, false);
    StartDecides(s, id);
    assert !FailedShape(heads);
    hide Sound, HeadsOf, DraftedFor, ReduceHeads, QueuedShape, FailedShape, Walk, StartOf, ScopeOf;
    if DraftedFor(s, id).Some? {
      FoundIsDraftedV1(s, ScopeOf(id), StartOf(heads));
      QueuedVerdict(id, heads, proof, DraftedFor(s, id));
    } else {
      QueuedWithoutDraft(id, heads, proof);
    }
  }

  lemma FailedAgrees(s: Store, id: Identity, proof: bool, drafted': Option<Reason>)
    requires FailedShape(HeadsOf(s, id)) && !ReduceHeads(id, HeadsOf(s, id), false, None).itemTerminal
    ensures SameVerdict(Reduce(s, id, proof), ReduceHeads(id, HeadsOf(s, id), true, drafted')) <==> proof
    ensures Reduce(s, id, proof).itemTerminal <==> proof
    ensures !QueuedShape(HeadsOf(s, id))
  {
    var heads := HeadsOf(s, id);
    assert !QueuedShape(heads);
    hide HeadsOf, DraftedFor, QueuedShape;
    FailedVerdict(id, heads, drafted');
    if proof {
      FailedVerdict(id, heads, DraftedFor(s, id));
    } else {
      FailedWithoutProof(id, heads, DraftedFor(s, id));
    }
    hide ReduceHeads;
  }

  /**
   A verdict is read from a snapshot whose own evidence is exactly the heads that exist now, and which was
   reduced from them with the completion report and the descendant's draft of its time. Those are not part of
   the digest: a terminal verdict is today's reduction exactly if what it rests on still holds.
   */
  lemma VerdictIsFresh(s: Store, d: Disk, job: string, generation: Option<string>, required: bool)
    requires Sane(d) && Settled(d) && AllReduced(d)
    ensures
      match Classify(s, d, job, generation, required)
      case Ok(Classified(category, snapshot)) =>
        && snapshot.identity.job == job && (generation.Some? ==> snapshot.identity.generation == generation.value)
        && snapshot.evidence == HeadsOf(s, snapshot.identity)
        && (exists proof, drafted :: ReduceHeads(snapshot.identity, HeadsOf(s, snapshot.identity), proof, drafted) == snapshot)
        && (category.ItemTerminal? <==> snapshot.itemTerminal)
      case _ => true
  {
    hide ReduceHeads, GoodRecord, HeadsOf, Sane, Settled, AllReduced;
    var r := Classify(s, d, job, generation, required);
    if r.Ok? && r.value.Classified? {
      var matches := Matching(d, job, generation);
      var id :| id in matches;
      forall other | other in matches ensures other == id {
        SingletonIsUnique(matches, id, other);
      }
      SettledIsReduced(d, id);
      var snapshot := d.attempts[id];
      var proof, drafted :| snapshot == ReduceHeads(snapshot.identity, snapshot.evidence, proof, drafted);
      ActionFollowsTerminality(snapshot.identity, snapshot.evidence, proof, drafted);
    }
  }

  lemma SettledIsReduced(d: Disk, id: Identity)
    requires Settled(d) && AllReduced(d) && id in d.attempts
    ensures Reduced(d.attempts[id])
  {
    hide Reduced;
    assert SettledAt(d, id);
    assert Reduced(d.journals[id][|d.journals[id]| - 1].body.snapshot);
  }

  /** When a terminal verdict agrees with what a reduction would say now, for either answer to whether a completion report exists. */
  lemma TerminalVerdictAgreesExactly(s: Store, d: Disk, job: string, generation: Option<string>, required: bool, proof: bool)
    requires Sound(s) && Sane(d) && Settled(d) && AllReduced(d)
    ensures
      match Classify(s, d, job, generation, required)
      case Ok(Classified(ItemTerminal, snapshot)) =>
        && (SameVerdict(Reduce(s, snapshot.identity, proof), snapshot) <==> StillRests(s, snapshot.identity, proof))
        && (Reduce(s, snapshot.identity, proof).itemTerminal <==> StillRests(s, snapshot.identity, proof))
      case _ => true
  {
    hide Sound, Sane, Settled, AllReduced, Classify, ReduceHeads, HeadsOf, StillRests, Reduce;
    VerdictIsFresh(s, d, job, generation, required);
    match Classify(s, d, job, generation, required)
    case Ok(Classified(ItemTerminal, snapshot)) =>
      var proof', drafted' :| ReduceHeads(snapshot.identity, HeadsOf(s, snapshot.identity), proof', drafted') == snapshot;
      AgreesExactly(s, snapshot.identity, proof, proof', drafted');
    case _ =>
  }

  /**
   The verdict that no longer holds: when an emission of another attempt takes away the draft that a settled
   snapshot was reduced with, the item is still reported terminal, though reducing it now says it is not.
   */
  lemma LostDraftIsStillReported(s: Store, e: Emission, d: Disk, id: Identity, required: bool)
    requires Sound(s) && Undoes(s, e, id) && e.identity != id && Reduce(s, id, false).itemTerminal
    requires Settled(d) && id in d.attempts && d.attempts[id] == Reduce(s, id, false)
    requires Matching(d, id.job, Some(id.generation)) == {id}
    ensures
      var t := Emit(s, e).0;
      && Classify(t, d, id.job, Some(id.generation), required) == Ok(Classified(ItemTerminal, d.attempts[id]))
      && !Reduce(t, id, false).itemTerminal
  {
    var t := Emit(s, e).0;
    assert Reduce(s, id, false) == ReduceHeads(id, HeadsOf(s, id), false, DraftedFor(s, id));
    assert Decided(Reduce(s, id, false)) by { ActionFollowsTerminality(id, HeadsOf(s, id), false, DraftedFor(s, id)); }
    assert Reduce(s, id, false).action.ExcludeAndSelectNext?;
    hide *;
    TerminalityLostExactly(s, e, id, false);
    ReductionKeepsEvidence(id, HeadsOf(s, id), false, DraftedFor(s, id));
    OthersKeepHeads(s, e, id);
    SettledIsReported(t, d, id, required);
  }

  /** A settled terminal snapshot of the heads that exist is reported. */
  lemma SettledIsReported(t: Store, d: Disk, id: Identity, required: bool)
    requires Settled(d) && id in d.attempts && Matching(d, id.job, Some(id.generation)) == {id}
    requires d.attempts[id].identity == id && d.attempts[id].evidence == HeadsOf(t, id)
    requires d.attempts[id].itemTerminal && d.attempts[id].action.ExcludeAndSelectNext?
    ensures Classify(t, d, id.job, Some(id.generation), required) == Ok(Classified(ItemTerminal, d.attempts[id]))
  {
    assert SettledAt(d, id);
    hide Settled, HeadsOf;
    assert Fresh(t, d, d.attempts[id]);
  }

  lemma OthersKeepHeads(s: Store, e: Emission, id: Identity)
    requires e.identity != id
    ensures HeadsOf(Emit(s, e).0, id) == HeadsOf(s, id)
  {}

  /** Any head that changed since the snapshot was recorded makes every classification of its job fail. */
  lemma StaleSnapshotIsRefused(s: Store, d: Disk, id: Identity, required: bool)
    requires Sane(d) && Settled(d) && id in d.attempts
    requires HeadsOf(s, id) != d.attempts[id].evidence
    ensures Classify(s, d, id.job, Some(id.generation), required).Err?
  {
    assert SettledAt(d, id);
    assert GoodRecord(d.journals[id], id, |d.journals[id]| - 1);
    var matches := Matching(d, id.job, Some(id.generation));
    assert id in matches;
    if |matches| == 1 {
      forall other | other in matches ensures other == id {
        SingletonIsUnique(matches, id, other);
      }
    }
  }

  /**
   What is answered when there is not exactly one attempt file for the job: none is missing where refill requires a
   canonical verdict and no verdict otherwise, several are an error.
   */
  lemma AbsenceIsAnswered(s: Store, d: Disk, job: string, generation: Option<string>, required: bool)
    ensures
      var r := Classify(s, d, job, generation, required);
      var some := exists id :: id in d.attempts && Matches(d, id, job, generation);
      var several := exists a, b :: a in d.attempts && b in d.attempts && a != b && Matches(d, a, job, generation) && Matches(d, b, job, generation);
      && (r == Ok(MissingSnapshot) <==> !some && required) && (r == Ok(NoVerdict) <==> !some && !required)
      && (r == Err(SeveralSnapshots) <==> several)
  {
    var matches := Matching(d, job, generation);
    forall id ensures id in matches <==> id in d.attempts && Matches(d, id, job, generation) {}
    if |matches| > 1 {
      var a :| a in matches;
      var rest := matches - {a};
      assert |rest| == |matches| - 1;
      var b :| b in rest;
    } else {
      forall a, b | a in matches && b in matches ensures a == b { SingletonIsUnique(matches, a, b); }
    }
    hide Fresh, Matches, CategoryOf;
  }

  predicate Matches(d: Disk, id: Identity, job: string, generation: Option<string>)
    requires id in d.attempts
  {
    d.attempts[id].identity.job == job && (generation.None? || d.attempts[id].identity.generation == generation.value)
  }
}

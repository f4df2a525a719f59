/** Exactly which emissions undo a terminal verdict: those that hide the drafted descendant it was reached through. */
module TerminalityLoss {
  import opened Outcomes
  import opened Collections
  import opened LifecycleEvidence
  import opened RevisionWalk
  import opened LifecycleReducer
  import opened Text

  /** The emission opens a second revision stream for a job passed on the way to the first drafted one. */
  ghost predicate CutsChain(s: Store, e: Emission, scope: Scope, start: string, n: nat) {
    StreamOf(e) !in s.heads
    && exists k: nat :: k < n && LinkedJob(s, scope, start, k).Some?
                        && InScope(StreamOf(e), scope, LinkedJob(s, scope, start, k).value, RevisionDisposition)
  }

  /** The emission opens a second review stream for the first drafted job. */
  predicate HidesDraft(s: Store, e: Emission, scope: Scope, job: string) {
    StreamOf(e) !in s.heads && InScope(StreamOf(e), scope, job, PublicationReview)
  }

  /** Some drafted job other than the first is reachable along the queued links. */
  ghost predicate AnotherDraft(s: Store, scope: Scope, start: string, job: string) {
    exists m: nat :: DraftedAt(s, scope, start, m) && LinkedJob(s, scope, start, m) != Some(job)
  }

  /** The emission takes away the draft found `n` links on. */
  ghost predicate Breaks(s: Store, e: Emission, scope: Scope, start: string, n: nat)
    requires LinkedJob(s, scope, start, n).Some?
  {
    var job := LinkedJob(s, scope, start, n).value;
    CutsChain(s, e, scope, start, n) || (HidesDraft(s, e, scope, job) && !AnotherDraft(s, scope, start, job))
  }

  // ---- what one emission does to the payloads read ----

  /** A job the emission is not about is read as before. */
  lemma OtherJobsStay(s: Store, e: Emission, scope: Scope, job: string, kind: Kind)
    requires !InScope(StreamOf(e), scope, job, kind)
    ensures PayloadForJob(Emit(s, e).0, scope, job, kind) == PayloadForJob(s, scope, job, kind)
  {
    var t := Emit(s, e).0;
    assert HeadsForJob(t, scope, job, kind) == HeadsForJob(s, scope, job, kind);
    LonePayload(s, t, scope, job, kind);
  }

  /** The same matches with the same heads give the same payload. */
  lemma LonePayload(s: Store, t: Store, scope: Scope, job: string, kind: Kind)
    requires HeadsForJob(t, scope, job, kind) == HeadsForJob(s, scope, job, kind)
    requires forall stream :: stream in HeadsForJob(s, scope, job, kind) ==> t.heads[stream] == s.heads[stream]
    ensures PayloadForJob(t, scope, job, kind) == PayloadForJob(s, scope, job, kind)
  {
    var matches := HeadsForJob(s, scope, job, kind);
    if |matches| == 1 {
      var stream :| stream in matches;
      forall other | other in matches ensures other == stream {
        SingletonIsUnique(matches, stream, other);
      }
    }
  }

  /** An ended payload is read as before unless a second stream is opened for its job. */
  lemma EndedPayloadStays(s: Store, e: Emission, scope: Scope, job: string, kind: Kind)
    requires Sound(s) && PayloadForJob(s, scope, job, kind).Some? && EndsStream(PayloadForJob(s, scope, job, kind).value)
    requires InScope(StreamOf(e), scope, job, kind) ==> StreamOf(e) in s.heads
    ensures PayloadForJob(Emit(s, e).0, scope, job, kind) == PayloadForJob(s, scope, job, kind)
  {
    if InScope(StreamOf(e), scope, job, kind) {
      var matches := HeadsForJob(s, scope, job, kind);
      forall other | other in matches ensures other == StreamOf(e) {
        SingletonIsUnique(matches, StreamOf(e), other);
      }
      assert HeadSound(s, StreamOf(e));
      var head := s.heads[StreamOf(e)];
      ValidPayloadCloses(head.id.payload, StreamOf(e).identity, head.sha.source, head.closed);
      hide ValidEmission, Sound, ValidPayload;
      var t := Emit(s, e).0;
      assert t.heads == s.heads;
      LonePayload(s, t, scope, job, kind);
    } else {
      OtherJobsStay(s, e, scope, job, kind);
    }
  }

  /** A second stream for a job leaves nothing to be read for it. */
  lemma SecondStreamHides(s: Store, e: Emission, scope: Scope, job: string, kind: Kind)
    requires Emit(s, e).1.Ok? && StreamOf(e) !in s.heads && InScope(StreamOf(e), scope, job, kind)
    requires PayloadForJob(s, scope, job, kind).Some?
    ensures PayloadForJob(Emit(s, e).0, scope, job, kind).None?
  {
    var t := Emit(s, e).0;
    var stream :| stream in HeadsForJob(s, scope, job, kind);
    var matches := HeadsForJob(t, scope, job, kind);
    assert stream in matches && StreamOf(e) in matches;
    if |matches| == 1 {
      SingletonIsUnique(matches, stream, StreamOf(e));
    }
  }

  // ---- links and drafts after the emission ----

  lemma LinkStays(s: Store, e: Emission, scope: Scope, job: string)
    requires Sound(s) && QueuedDescendant(s, scope, job).Some?
    requires InScope(StreamOf(e), scope, job, RevisionDisposition) ==> StreamOf(e) in s.heads
    ensures QueuedDescendant(Emit(s, e).0, scope, job) == QueuedDescendant(s, scope, job)
  {
    EndedPayloadStays(s, e, scope, job, RevisionDisposition);
  }

  lemma DraftStays(s: Store, e: Emission, scope: Scope, job: string)
    requires Sound(s) && DraftedReason(s, scope, job).Some?
    requires InScope(StreamOf(e), scope, job, PublicationReview) ==> StreamOf(e) in s.heads
    ensures DraftedReason(Emit(s, e).0, scope, job) == DraftedReason(s, scope, job)
  {
    EndedPayloadStays(s, e, scope, job, PublicationReview);
  }

  /** Without a cut, the first draft is found where it was, unless it is hidden. */
  lemma UncutChainStays(s: Store, e: Emission, scope: Scope, start: string, n: nat)
    requires Sound(s) && FirstDrafted(s, scope, start, n, DraftedV1) && !CutsChain(s, e, scope, start, n)
    requires !HidesDraft(s, e, scope, LinkedJob(s, scope, start, n).value)
    ensures DraftedAt(Emit(s, e).0, scope, start, n)
  {
    var t := Emit(s, e).0;
    LinksAreQueued(s, scope, start, n, DraftedV1);
    forall k: nat | k < n
      ensures LinkedJob(s, scope, start, k).Some?
      ensures QueuedDescendant(t, scope, LinkedJob(s, scope, start, k).value) == QueuedDescendant(s, scope, LinkedJob(s, scope, start, k).value)
    {
      hide Sound, Emit, QueuedDescendant, LinkedJob, InScope;
      LinkStays(s, e, scope, LinkedJob(s, scope, start, k).value);
    }
    hide Sound, Emit, QueuedDescendant, LinkedJob, InScope, DraftedReason;
    LinkedAgain(s, t, scope, start, n);
    DraftStays(s, e, scope, LinkedJob(s, scope, start, n).value);
  }

  lemma ReviewKeepsLinks(s: Store, e: Emission, scope: Scope, start: string)
    requires KindOf(e.payload) == PublicationReview
    ensures forall m: nat :: LinkedJob(Emit(s, e).0, scope, start, m) == LinkedJob(s, scope, start, m)
  {
    forall m: nat ensures LinkedJob(Emit(s, e).0, scope, start, m) == LinkedJob(s, scope, start, m) {
      SameLinks(s, e, scope, start, m);
    }
  }

  lemma ReviewKeepsLink(s: Store, e: Emission, scope: Scope, job: string)
    requires KindOf(e.payload) == PublicationReview
    ensures QueuedDescendant(Emit(s, e).0, scope, job) == QueuedDescendant(s, scope, job)
  {
    hide Emit;
    OtherJobsStay(s, e, scope, job, RevisionDisposition);
  }

  lemma {:induction false} SameLinks(s: Store, e: Emission, scope: Scope, start: string, m: nat)
    requires KindOf(e.payload) == PublicationReview
    ensures LinkedJob(Emit(s, e).0, scope, start, m) == LinkedJob(s, scope, start, m)
    decreases m
  {
    hide Emit, QueuedDescendant, KindOf;
    var t := Emit(s, e).0;
    assert LinkedJob(t, scope, start, 0) == LinkedJob(s, scope, start, 0);
    hide LinkedJob;
    if m > 0 {
      SameLinks(s, e, scope, start, m - 1);
      LinkedStep(s, scope, start, m);
      LinkedStep(t, scope, start, m);
      match LinkedJob(s, scope, start, m - 1)
      case None =>
      case Some(job) => ReviewKeepsLink(s, e, scope, job);
    }
  }

  /** Once the first draft is hidden, what is left to find are the other drafts. */
  lemma HiddenDraft(s: Store, e: Emission, scope: Scope, start: string, job: string)
    requires Emit(s, e).1.Ok? && HidesDraft(s, e, scope, job) && DraftedReason(s, scope, job).Some?
    ensures (exists m: nat :: DraftedAt(Emit(s, e).0, scope, start, m)) <==> AnotherDraft(s, scope, start, job)
  {
    var t := Emit(s, e).0;
    ReviewKeepsLinks(s, e, scope, start);
    SecondStreamHides(s, e, scope, job, PublicationReview);
    assert DraftedReason(t, scope, job).None?;
    hide Emit, LinkedJob;
    forall m: nat | LinkedJob(s, scope, start, m).Some? && LinkedJob(s, scope, start, m) != Some(job)
      ensures DraftedAt(t, scope, start, m) <==> DraftedAt(s, scope, start, m)
    {
      OtherJobsStay(s, e, scope, LinkedJob(s, scope, start, m).value, PublicationReview);
    }
    hide DraftedReason;
    if AnotherDraft(s, scope, start, job) {
      var m: nat :| DraftedAt(s, scope, start, m) && LinkedJob(s, scope, start, m) != Some(job);
      assert DraftedAt(t, scope, start, m);
    }
  }

  lemma RevisionKeepsDrafts(s: Store, e: Emission, scope: Scope, job: string)
    requires KindOf(e.payload) == RevisionDisposition
    ensures DraftedReason(Emit(s, e).0, scope, job) == DraftedReason(s, scope, job)
  {
    OtherJobsStay(s, e, scope, job, PublicationReview);
  }

  /** A cut chain ends before the first draft. */
  lemma CutChain(s: Store, e: Emission, scope: Scope, start: string, n: nat, m: nat)
    requires Sound(s) && FirstDrafted(s, scope, start, n, DraftedV1) && CutsChain(s, e, scope, start, n) && Emit(s, e).1.Ok?
    ensures !DraftedAt(Emit(s, e).0, scope, start, m)
  {
    var t := Emit(s, e).0;
    var k: nat := FirstCut(s, e, scope, start, n);
    var job := LinkedJob(s, scope, start, k).value;
    LinksAreQueued(s, scope, start, n, DraftedV1);
    SecondStreamHides(s, e, scope, job, RevisionDisposition);
    assert QueuedDescendant(t, scope, job).None?;
    assert LinksStay(s, t, scope, start, k) by {
      hide Emit, LinkedJob, QueuedDescendant, Sound;
      forall i: nat | i < k
        ensures LinkedJob(s, scope, start, i).Some?
        ensures QueuedDescendant(t, scope, LinkedJob(s, scope, start, i).value) == QueuedDescendant(s, scope, LinkedJob(s, scope, start, i).value)
      {
        LinkStays(s, e, scope, LinkedJob(s, scope, start, i).value);
      }
    }
    assert KindOf(e.payload) == RevisionDisposition;
    hide Emit, QueuedDescendant, DraftedReason, Sound, LinksStay;
    if m <= k {
      LinksStayBefore(s, t, scope, start, m, k);
      LinkedAgain(s, t, scope, start, m);
      assert LinkedJob(s, scope, start, m).Some?;
      RevisionKeepsDrafts(s, e, scope, LinkedJob(s, scope, start, m).value);
    } else {
      LinkedAgain(s, t, scope, start, k);
      ChainEnds(t, scope, start, k, m);
    }
  }

  lemma LinksStayBefore(s: Store, t: Store, scope: Scope, start: string, m: nat, n: nat)
    requires LinksStay(s, t, scope, start, n) && m <= n
    ensures LinksStay(s, t, scope, start, m)
  {}

  /** The first job on the chain whose link the emission cuts. */
  lemma FirstCut(s: Store, e: Emission, scope: Scope, start: string, n: nat) returns (k: nat)
    requires CutsChain(s, e, scope, start, n)
    ensures k < n && LinkedJob(s, scope, start, k).Some?
    ensures InScope(StreamOf(e), scope, LinkedJob(s, scope, start, k).value, RevisionDisposition)
    ensures forall i: nat | i < k && LinkedJob(s, scope, start, i).Some? ::
              !InScope(StreamOf(e), scope, LinkedJob(s, scope, start, i).value, RevisionDisposition)
  {
    hide LinkedJob, InScope;
    k := 0;
    while !(LinkedJob(s, scope, start, k).Some? && InScope(StreamOf(e), scope, LinkedJob(s, scope, start, k).value, RevisionDisposition))
      invariant k < n
      invariant exists i: nat :: k <= i < n && LinkedJob(s, scope, start, i).Some?
                                 && InScope(StreamOf(e), scope, LinkedJob(s, scope, start, i).value, RevisionDisposition)
      invariant forall i: nat | i < k && LinkedJob(s, scope, start, i).Some? ::
        !InScope(StreamOf(e), scope, LinkedJob(s, scope, start, i).value, RevisionDisposition)
      decreases n - k
    {
      k := k + 1;
    }
  }

  lemma {:induction false} ChainEnds(t: Store, scope: Scope, start: string, k: nat, m: nat)
    requires LinkedJob(t, scope, start, k).Some? && QueuedDescendant(t, scope, LinkedJob(t, scope, start, k).value).None? && m > k
    ensures LinkedJob(t, scope, start, m).None?
    decreases m
  {
    hide LinkedJob, QueuedDescendant;
    LinkedStep(t, scope, start, m);
    if m > k + 1 {
      ChainEnds(t, scope, start, k, m - 1);
    }
  }

  /** After an accepted emission a draft is still found exactly unless the emission breaks the chain or hides the only draft. */
  lemma DraftLostExactly(s: Store, e: Emission, scope: Scope, start: string, n: nat)
    requires Sound(s) && FirstDrafted(s, scope, start, n, DraftedV1) && Emit(s, e).1.Ok?
    ensures Walk(Emit(s, e).0, scope, start, {}).None? <==> Breaks(s, e, scope, start, n)
  {
    var t := Emit(s, e).0;
    var job := LinkedJob(s, scope, start, n).value;
    hide Sound, Emit, LinkedJob, DraftedReason, InScope;
    WalkDecidesReachability(t, scope, start);
    if CutsChain(s, e, scope, start, n) {
      forall m: nat ensures !DraftedAt(t, scope, start, m) {
        CutChain(s, e, scope, start, n, m);
      }
    } else if HidesDraft(s, e, scope, job) {
      HiddenDraft(s, e, scope, start, job);
    } else {
      UncutChainStays(s, e, scope, start, n);
    }
  }

  // ---- terminal verdicts ----

  /** An accepted emission that takes away the only draft a queued item's verdict rests on. */
  ghost predicate Undoes(s: Store, e: Emission, id: Identity) {
    && Emit(s, e).1.Ok? && QueuedShape(HeadsOf(s, id))
    && exists n: nat ::
         FirstDrafted(s, ScopeOf(id), StartOf(HeadsOf(s, id)), n, DraftedV1) && Breaks(s, e, ScopeOf(id), StartOf(HeadsOf(s, id)), n)
  }

  /** Any emission leaves a terminal item terminal unless it undoes the draft its verdict rests on, and then it does not. */
  lemma TerminalityLostExactly(s: Store, e: Emission, id: Identity, proof: bool)
    requires Sound(s) && Reduce(s, id, proof).itemTerminal
    ensures !Reduce(Emit(s, e).0, id, proof).itemTerminal <==> Undoes(s, e, id)
  {
    hide *;
    RunOfOne(s, e);
    if QueuedShape(HeadsOf(s, id)) {
      QueuedVerdictLostExactly(s, e, id, proof);
    } else {
      OnlyQueuedIsUndone(s, e, id);
      OthersStayTerminal(s, e, id, proof);
    }
  }

  lemma RunOfOne(s: Store, e: Emission)
    ensures Run(s, [e]) == Emit(s, e).0
  {
    hide Emit;
    assert [e][1..] == [];
  }

  lemma OnlyQueuedIsUndone(s: Store, e: Emission, id: Identity)
    requires !QueuedShape(HeadsOf(s, id))
    ensures !Undoes(s, e, id)
  {
    hide QueuedShape, HeadsOf, FirstDrafted, Breaks, Emit;
  }

  lemma OthersStayTerminal(s: Store, e: Emission, id: Identity, proof: bool)
    requires Sound(s) && Run(s, [e]) == Emit(s, e).0 && Reduce(s, id, proof).itemTerminal && !QueuedShape(HeadsOf(s, id))
    ensures Reduce(Emit(s, e).0, id, proof).itemTerminal
  {
    var heads := HeadsOf(s, id);
    HeadsOfAreSound(s, id);
    SoundKinds(id, heads);
    hide Sound, SoundHeads, HeadsOf, ReduceHeads, DraftedFor, Emit, Run, QueuedShape, FailedShape;
    if ReduceHeads(id, heads, false, None).itemTerminal {
      StaysTerminal(s, e, id, proof);
    } else {
      ExternalTerminality(id, heads, proof, DraftedFor(s, id));
      FailedStaysTerminal(s, e, id);
    }
  }

  lemma StaysTerminal(s: Store, e: Emission, id: Identity, proof: bool)
    requires Sound(s) && Run(s, [e]) == Emit(s, e).0 && ReduceHeads(id, HeadsOf(s, id), false, None).itemTerminal
    ensures Reduce(Emit(s, e).0, id, proof).itemTerminal
  {
    hide ReduceHeads, Emit, Run, Sound;
    OwnTerminalityIsPermanent(s, [e], id, proof);
  }

  lemma FailedStaysTerminal(s: Store, e: Emission, id: Identity)
    requires Sound(s) && Run(s, [e]) == Emit(s, e).0 && FailedShape(HeadsOf(s, id))
    ensures Reduce(Emit(s, e).0, id, true).itemTerminal
  {
    FailedVerdict(id, HeadsOf(s, id), DraftedFor(s, id));
    hide ReduceHeads, Emit, Run, Sound, FailedShape;
    FailedIsPermanent(s, [e], id, true, true);
  }

  lemma StartDecides(s: Store, id: Identity)
    requires QueuedShape(HeadsOf(s, id))
    ensures DraftedFor(s, id) == Walk(s, ScopeOf(id), StartOf(HeadsOf(s, id)), {})
  {
    hide Walk;
  }

  lemma QueuedVerdictLostExactly(s: Store, e: Emission, id: Identity, proof: bool)
    requires Sound(s) && Run(s, [e]) == Emit(s, e).0 && QueuedShape(HeadsOf(s, id)) && Reduce(s, id, proof).itemTerminal
    ensures !Reduce(Emit(s, e).0, id, proof).itemTerminal <==> Undoes(s, e, id)
  {
    var t, scope, start := Emit(s, e).0, ScopeOf(id), StartOf(HeadsOf(s, id));
    QueuedStays(s, e, id);
    hide Sound, Emit, Run, HeadsOf, DraftedFor, ScopeOf, StartOf, FirstDrafted, Breaks, QueuedShape;
    QueuedIsDecided(s, id, proof);
    QueuedIsDecided(t, id, proof);
    var n := WalkFindsFirst(s, scope, start, {});
    FirstIsDraftedV1(s, scope, start, n, Walk(s, scope, start, {}).value);
    hide Reduce;
    if Emit(s, e).1.Ok? {
      DraftLostExactly(s, e, scope, start, n);
      forall m: nat | FirstDrafted(s, scope, start, m, DraftedV1) ensures m == n {
        FirstIsUnique(s, scope, start, m, n);
      }
    } else {
      RefusalKeepsDraft(s, e, scope, start, n);
    }
  }

  /** A queued item is terminal exactly when a draft is found. */
  lemma QueuedIsDecided(s: Store, id: Identity, proof: bool)
    requires Sound(s) && QueuedShape(HeadsOf(s, id))
    ensures Reduce(s, id, proof).itemTerminal <==> Walk(s, ScopeOf(id), StartOf(HeadsOf(s, id)), {}).Some?
  {
    StartDecides(s, id);
    hide HeadsOf, DraftedFor, StartOf, ScopeOf, Sound, ReduceHeads, Walk;
    var drafted := DraftedFor(s, id);
    if drafted.Some? {
      FoundIsDraftedV1(s, ScopeOf(id), StartOf(HeadsOf(s, id)));
      QueuedVerdict(id, HeadsOf(s, id), proof, drafted);
    } else {
      QueuedWithoutDraft(id, HeadsOf(s, id), proof);
    }
  }

  lemma FoundIsDraftedV1(s: Store, scope: Scope, start: string)
    requires Sound(s) && Walk(s, scope, start, {}).Some?
    ensures Walk(s, scope, start, {}) == Some(DraftedV1)
  {
    hide Sound, DraftedReason, LinkedJob;
    var n := WalkFindsFirst(s, scope, start, {});
    FirstIsDraftedV1(s, scope, start, n, Walk(s, scope, start, {}).value);
  }

  lemma FirstIsDraftedV1(s: Store, scope: Scope, start: string, n: nat, reason: Reason)
    requires Sound(s) && FirstDrafted(s, scope, start, n, reason)
    ensures reason == DraftedV1
  {
    hide Sound, DraftedReason, LinkedJob;
    DraftedIsDraftedV1(s, scope, LinkedJob(s, scope, start, n).value);
  }

  lemma FirstIsUnique(s: Store, scope: Scope, start: string, m: nat, n: nat)
    requires FirstDrafted(s, scope, start, m, DraftedV1) && FirstDrafted(s, scope, start, n, DraftedV1)
    ensures m == n
  {
    hide DraftedReason, LinkedJob;
  }

  /** A queued item's own streams are all closed, so no emission changes where its walk starts. */
  lemma QueuedStays(s: Store, e: Emission, id: Identity)
    requires Sound(s) && Run(s, [e]) == Emit(s, e).0 && QueuedShape(HeadsOf(s, id))
    ensures Sound(Emit(s, e).0) && QueuedShape(HeadsOf(Emit(s, e).0, id))
    ensures StartOf(HeadsOf(Emit(s, e).0, id)) == StartOf(HeadsOf(s, id))
  {
    EmitKeepsSound(s, e);
    hide Emit, Run, Sound, HeadsOf, StartOf, QueuedShape, ClosedAlike;
    QueuedHeadsStay(s, e, id);
    AlikeStaysQueued(HeadsOf(s, id), HeadsOf(Emit(s, e).0, id));
  }

  /** The streams a queued verdict is read from are the same. */
  predicate ClosedAlike(heads: map<Kind, Head>, later: map<Kind, Head>) {
    AgreeOn({DispatchPrepared, DispatchSubmitted, HostExecution, RelayResult, GateValidation, RevisionDisposition}, heads, later)
  }

  lemma QueuedHeadsStay(s: Store, e: Emission, id: Identity)
    requires Sound(s) && Run(s, [e]) == Emit(s, e).0 && QueuedShape(HeadsOf(s, id))
    ensures ClosedAlike(HeadsOf(s, id), HeadsOf(Emit(s, e).0, id))
  {
    HeadsOfAreSound(s, id);
    hide *;
    QueuedHeadsEnd(id, HeadsOf(s, id));
    ClosedHeadsPersist(s, [e], id);
    ClosedIsAlike(HeadsOf(s, id), HeadsOf(Emit(s, e).0, id));
  }

  lemma ClosedIsAlike(heads: map<Kind, Head>, later: map<Kind, Head>)
    requires forall kind :: kind in {DispatchPrepared, DispatchSubmitted, HostExecution, RelayResult, GateValidation, RevisionDisposition} ==>
               Closed(heads, kind)
    requires forall kind :: Closed(heads, kind) ==> kind in later && later[kind] == heads[kind]
    ensures ClosedAlike(heads, later)
  {
    assert Closed(heads, DispatchPrepared) && Closed(heads, DispatchSubmitted) && Closed(heads, HostExecution);
    assert Closed(heads, RelayResult) && Closed(heads, GateValidation) && Closed(heads, RevisionDisposition);
  }

  lemma AlikeStaysQueued(heads: map<Kind, Head>, later: map<Kind, Head>)
    requires ClosedAlike(heads, later) && QueuedShape(heads)
    ensures QueuedShape(later) && StartOf(later) == StartOf(heads)
  {}

  /** A refused emission leaves the heads, and so the draft, alone. */
  lemma RefusalKeepsDraft(s: Store, e: Emission, scope: Scope, start: string, n: nat)
    requires Emit(s, e).1.Err? && FirstDrafted(s, scope, start, n, DraftedV1)
    ensures Walk(Emit(s, e).0, scope, start, {}).Some?
  {
    var t := Emit(s, e).0;
    assert t.heads == s.heads;
    hide Emit;
    forall k: nat | k < n
      ensures LinkedJob(s, scope, start, k).Some?
      ensures QueuedDescendant(t, scope, LinkedJob(s, scope, start, k).value) == QueuedDescendant(s, scope, LinkedJob(s, scope, start, k).value)
    {
      LonePayload(s, t, scope, LinkedJob(s, scope, start, k).value, RevisionDisposition);
    }
    LinkedAgain(s, t, scope, start, n);
    LonePayload(s, t, scope, LinkedJob(s, scope, start, n).value, PublicationReview);
    assert DraftedAt(t, scope, start, n);
    WalkDecidesReachability(t, scope, start);
  }

  /** The item is terminal now and after every further emission. */
  ghost predicate AlwaysTerminal(s: Store, es: seq<Emission>, id: Identity, proof: bool)
    decreases |es|
  {
    Reduce(s, id, proof).itemTerminal && (es != [] ==> AlwaysTerminal(Emit(s, es[0]).0, es[1..], id, proof))
  }

  /** No emission undoes the verdict on the store it meets. */
  ghost predicate NeverUndone(s: Store, es: seq<Emission>, id: Identity)
    decreases |es|
  {
    es != [] ==> !Undoes(s, es[0], id) && NeverUndone(Emit(s, es[0]).0, es[1..], id)
  }

  /** Over any run, a terminal item stays terminal throughout exactly when no emission undoes it. */
  lemma {:induction false} TerminalThroughoutExactly(s: Store, es: seq<Emission>, id: Identity, proof: bool)
    requires Sound(s) && Reduce(s, id, proof).itemTerminal
    ensures AlwaysTerminal(s, es, id, proof) <==> NeverUndone(s, es, id)
    decreases |es|
  {
    if es != [] {
      hide Sound, Reduce, Undoes;
      var t := Emit(s, es[0]).0;
      EmitKeepsSound(s, es[0]);
      TerminalityLostExactly(s, es[0], id, proof);
      if Reduce(t, id, proof).itemTerminal {
        TerminalThroughoutExactly(t, es[1..], id, proof);
      } else {
        assert !AlwaysTerminal(t, es[1..], id, proof);
      }
    }
  }
}

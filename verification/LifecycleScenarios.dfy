/**
 Attempts told from empty directories on: how an item becomes terminal by its own draft, how it becomes
 terminal by the draft of a queued descendant, and how a second attempt at the descendant's job undoes the latter.
 */
module LifecycleScenarios {
  import opened Outcomes
  import opened LifecycleEvidence
  import opened RevisionWalk
  import opened LifecycleReducer
  import opened LifecycleJournal
  import opened LifecycleRecovery
  import opened CanonicalClassification
  import opened TerminalityLoss
  import opened Text

  /** Every stored envelope belongs to a stream that has a head. */
  ghost predicate Headed(s: Store) {
    forall seed :: seed in s.envelopes ==> Stream(seed.identity, KindOf(seed.payload)) in s.heads
  }

  /** Valid first emissions, each on a stream of its own that the store does not know yet. */
  predicate Opening(s: Store, es: seq<Emission>) {
    && (forall i :: 0 <= i < |es| ==> ValidEmission(es[i]) && es[i].sequence == 1 && !es[i].dies && StreamOf(es[i]) !in s.heads)
    && (forall i, j :: 0 <= i < j < |es| ==> StreamOf(es[i]) != StreamOf(es[j]))
  }

  lemma OpenedStream(s: Store, e: Emission)
    requires Sound(s) && Headed(s) && ValidEmission(e) && e.sequence == 1 && !e.dies && StreamOf(e) !in s.heads
    ensures
      var t := Emit(s, e).0;
      && Sound(t) && Headed(t)
      && Emit(s, e).1 == Ok(HeadOf(e)) && t.heads == s.heads[StreamOf(e) := HeadOf(e)]
  {
    EmitKeepsSound(s, e);
    hide Sound, ValidEmission;
  }

  /** First emissions on new streams are all accepted, and become the heads of exactly those streams. */
  lemma {:induction false} OpenedStreams(s: Store, es: seq<Emission>)
    requires Sound(s) && Headed(s) && Opening(s, es)
    ensures
      var t := Run(s, es);
      && Sound(t) && Headed(t)
      && (forall stream :: stream in t.heads <==> stream in s.heads || exists i :: 0 <= i < |es| && StreamOf(es[i]) == stream)
      && (forall i :: 0 <= i < |es| ==> t.heads[StreamOf(es[i])] == HeadOf(es[i]))
      && (forall stream :: stream in s.heads ==> t.heads[stream] == s.heads[stream])
    decreases |es|
  {
    hide Sound, Headed, Emit, ValidEmission;
    if es != [] {
      OpenedStream(s, es[0]);
      var u := Emit(s, es[0]).0;
      OpenedStreams(u, es[1..]);
    }
  }

  // ---- the emissions of an attempt ----

  function Told(id: Identity, payload: Payload, closed: ClosedStatus, sha: string): Emission {
    Emission(id, payload, HostPath("evidence.json"), sha, 1, true, closed, "now", false)
  }

  /** Dispatched, executed and relayed. */
  function Executed(id: Identity, sha: string, commit: string): seq<Emission> {
    [Told(id, PreparedPayload(id.pipeline, id.workItem, id.workItemDigest, id.generation, None, "slot", 1, 0, 0), Final, sha),
     Emission(id, SubmittedPayload(Some(commit), Some("job.yaml"), Some(sha)),
              GitRef("jobs", "main", commit, "job.yaml", sha), sha, 1, true, Final, "now", false),
     Told(id, HostPayload(Completed, Some("completed"), None), Final, sha),
     Told(id, RelayPayload(RelayDone, Some(commit), Some(sha), Some(sha), true), Final, sha)]
  }

  function Gated(id: Identity, passed: bool, sha: string, commit: string): Emission {
    Told(id, GatePayload(if passed then Passed else ValidationFailed,
                         Some(if passed then "candidate_passed" else "candidate_failed"), Some(sha), Some(sha), Some(commit)), Final, sha)
  }

  function Cleared(id: Identity, sha: string): Emission {
    Told(id, RevisionPayload(RevisionNotApplicable, None, Some(sha), None, None), NotApplicable, sha)
  }

  function Revised(id: Identity, descendant: string, sha: string, commit: string): Emission {
    Told(id, RevisionPayload(Queued, Some(descendant), Some(sha), Some(commit), None), Final, sha)
  }

  function Reviewed(id: Identity, sha: string, commit: string): Emission {
    Told(id, ReviewPayload(Drafted, Some(DraftedV1), Some("draft"), None, Some("branch"), Some(commit), None, None, Some(commit)), Final, sha)
  }

  /** The candidate passed its gate and was drafted. */
  function DraftedStory(id: Identity, sha: string, commit: string): seq<Emission> {
    Executed(id, sha, commit)
    + [Gated(id, true, sha, commit), Cleared(id, sha), Reviewed(id, sha, commit)]
  }

  /** The candidate failed its gate, a revision was queued, and the revision was drafted. */
  function RevisedStory(id: Identity, child: Identity, sha: string, commit: string): seq<Emission> {
    Executed(id, sha, commit)
    + [Gated(id, false, sha, commit), Revised(id, child.job, sha, commit), Reviewed(child, sha, commit)]
  }

  // ---- the stories are accepted ----

  predicate OpensStream(e: Emission) { ValidEmission(e) && e.sequence == 1 && !e.dies }

  lemma ExecutedOpens(id: Identity, sha: string, commit: string)
    requires ValidIdentity(id) && IsSha256(sha) && IsCommit(commit)
    ensures forall e :: e in Executed(id, sha, commit) ==> OpensStream(e)
  {
    hide IsHex, ValidIdentity;
    var es := Executed(id, sha, commit);
    assert OpensStream(es[0]) && OpensStream(es[1]) && OpensStream(es[2]) && OpensStream(es[3]);
  }

  lemma DecisionsOpen(id: Identity, passed: bool, descendant: string, sha: string, commit: string)
    requires ValidIdentity(id) && descendant != "" && IsSha256(sha) && IsCommit(commit)
    ensures OpensStream(Gated(id, passed, sha, commit)) && OpensStream(Reviewed(id, sha, commit))
    ensures OpensStream(Cleared(id, sha)) && OpensStream(Revised(id, descendant, sha, commit))
  {
    hide IsHex, ValidIdentity;
  }

  /** Kinds in the order a story tells them. */
  const ORDER := [DispatchPrepared, DispatchSubmitted, HostExecution, RelayResult, GateValidation, RevisionDisposition, PublicationReview]

  predicate InOrder(es: seq<Emission>) {
    |es| == |ORDER| && forall i :: 0 <= i < |es| ==> KindOf(es[i].payload) == ORDER[i] && es[i].sequence == 1
  }

  lemma OrderedOpens(es: seq<Emission>)
    requires InOrder(es) && forall e :: e in es ==> OpensStream(e)
    ensures Opening(EMPTY_STORE, es)
  {
    hide ValidEmission, KindOf;
    forall i | 0 <= i < |es| ensures OpensStream(es[i]) {
      assert es[i] in es;
    }
    forall i, j | 0 <= i < j < |es| ensures StreamOf(es[i]) != StreamOf(es[j]) {
      assert ORDER[i] != ORDER[j];
    }
  }

  lemma EmptyIsSound()
    ensures Sound(EMPTY_STORE) && Headed(EMPTY_STORE)
  {}

  /** The store holds exactly the heads of the story. */
  ghost predicate Tells(s: Store, es: seq<Emission>)
    requires InOrder(es)
  {
    && (forall stream :: stream in s.heads <==> exists i :: 0 <= i < |es| && StreamOf(es[i]) == stream)
    && (forall i :: 0 <= i < |es| ==> StreamOf(es[i]) in s.heads && s.heads[StreamOf(es[i])] == HeadOf(es[i]))
  }

  lemma StoryTold(es: seq<Emission>)
    requires InOrder(es) && forall e :: e in es ==> OpensStream(e)
    ensures Sound(Run(EMPTY_STORE, es)) && Headed(Run(EMPTY_STORE, es)) && Tells(Run(EMPTY_STORE, es), es)
  {
    hide OpensStream, Sound, Headed, Run;
    OrderedOpens(es);
    EmptyIsSound();
    OpenedStreams(EMPTY_STORE, es);
  }

  /** Each of the first emissions, all the attempt's own, is what its heads hold for that kind. */
  lemma HeadsTold(es: seq<Emission>, s: Store, id: Identity, n: nat)
    requires InOrder(es) && Tells(s, es) && n <= |es| && forall i :: 0 <= i < n ==> es[i].identity == id
    ensures forall i :: 0 <= i < n ==> ORDER[i] in HeadsOf(s, id) && HeadsOf(s, id)[ORDER[i]] == HeadOf(es[i])
  {
    forall i | 0 <= i < n ensures ORDER[i] in HeadsOf(s, id) && HeadsOf(s, id)[ORDER[i]] == HeadOf(es[i]) {
      assert StreamOf(es[i]) == Stream(id, ORDER[i]);
    }
  }

  lemma DraftedOpens(id: Identity, sha: string, commit: string)
    requires ValidIdentity(id) && IsSha256(sha) && IsCommit(commit)
    ensures InOrder(DraftedStory(id, sha, commit)) && forall e :: e in DraftedStory(id, sha, commit) ==> OpensStream(e)
  {
    hide IsHex, OpensStream, ValidIdentity;
    ExecutedOpens(id, sha, commit);
    DecisionsOpen(id, true, "other", sha, commit);
  }

  lemma RevisedOpens(id: Identity, child: Identity, sha: string, commit: string)
    requires ValidIdentity(id) && ValidIdentity(child) && IsSha256(sha) && IsCommit(commit)
    ensures InOrder(RevisedStory(id, child, sha, commit)) && forall e :: e in RevisedStory(id, child, sha, commit) ==> OpensStream(e)
  {
    assert child.job != "";
    hide IsHex, OpensStream, ValidIdentity;
    ExecutedOpens(id, sha, commit);
    DecisionsOpen(id, false, child.job, sha, commit);
    DecisionsOpen(child, false, child.job, sha, commit);
  }

  // ---- how they end ----

  /** Executed, passed by its gate, no revision asked for, and drafted. */
  predicate DraftedShape(heads: map<Kind, Head>) {
    && DispatchPrepared in heads && DispatchSubmitted in heads && HostExecution in heads
    && heads[HostExecution].id.payload.HostPayload? && heads[HostExecution].id.payload.execution.Completed?
    && RelayResult in heads && GateValidation in heads && RevisionDisposition in heads && PublicationReview in heads
    && heads[RelayResult].id.payload.RelayPayload? && heads[RelayResult].id.payload.relayed.RelayDone?
    && heads[GateValidation].id.payload.GatePayload? && heads[GateValidation].id.payload.validation.Passed?
    && heads[RevisionDisposition].id.payload.RevisionPayload? && heads[RevisionDisposition].id.payload.revision.RevisionNotApplicable?
    && heads[PublicationReview].id.payload.ReviewPayload? && heads[PublicationReview].id.payload.review.Drafted?
    && heads[PublicationReview].id.payload.reviewReason == Some(DraftedV1)
  }

  lemma DraftedVerdict(id: Identity, heads: map<Kind, Head>)
    requires DraftedShape(heads)
    ensures ReduceHeads(id, heads, false, None).itemTerminal
  {}

  lemma ToldAsDrafted(id: Identity, heads: map<Kind, Head>, sha: string, commit: string)
    requires
      var es := DraftedStory(id, sha, commit);
      forall i :: 0 <= i < |es| ==> ORDER[i] in heads && heads[ORDER[i]].id.payload == es[i].payload
    ensures DraftedShape(heads)
  {
    var es := DraftedStory(id, sha, commit);
    assert es[2].payload.execution.Completed? && ORDER[2] == HostExecution;
    assert es[3].payload.relayed.RelayDone? && ORDER[3] == RelayResult;
    assert es[4].payload.validation.Passed? && ORDER[4] == GateValidation;
    assert es[5].payload.revision.RevisionNotApplicable? && ORDER[5] == RevisionDisposition;
    assert es[6].payload.review.Drafted? && ORDER[6] == PublicationReview;
    assert ORDER[0] == DispatchPrepared && ORDER[1] == DispatchSubmitted;
  }

  /** An attempt whose candidate passed and was drafted ends its item by its own evidence. */
  lemma OwnDraftEndsTheItem(id: Identity, sha: string, commit: string)
    requires ValidIdentity(id) && IsSha256(sha) && IsCommit(commit)
    ensures
      var s := Run(EMPTY_STORE, DraftedStory(id, sha, commit));
      Sound(s) && ReduceHeads(id, HeadsOf(s, id), false, None).itemTerminal
  {
    hide IsHex, IsSha256, IsCommit, ValidIdentity, Sound, Headed, OpensStream, Run, ReduceHeads, InOrder, DraftedShape, HeadsOf, Tells;
    DraftedOpens(id, sha, commit);
    var es := DraftedStory(id, sha, commit);
    StoryTold(es);
    var s := Run(EMPTY_STORE, es);
    assert forall i :: 0 <= i < |es| ==> es[i].identity == id by { DraftedIdentities(id, sha, commit); }
    HeadsTold(es, s, id, 7);
    ToldAsDrafted(id, HeadsOf(s, id), sha, commit);
    DraftedVerdict(id, HeadsOf(s, id));
  }

  lemma DraftedIdentities(id: Identity, sha: string, commit: string)
    ensures
      var es := DraftedStory(id, sha, commit);
      |es| == 7 && forall i :: 0 <= i < |es| ==> es[i].identity == id
  {}

  lemma RevisedShape(id: Identity, heads: map<Kind, Head>, child: Identity, sha: string, commit: string)
    requires
      var es := RevisedStory(id, child, sha, commit);
      forall i :: 0 <= i < 6 ==> ORDER[i] in heads && heads[ORDER[i]].id.payload == es[i].payload
    ensures QueuedShape(heads) && heads[RevisionDisposition].id.payload.descendant == Some(child.job)
  {
    var es := RevisedStory(id, child, sha, commit);
    assert es[2].payload.execution.Completed? && ORDER[2] == HostExecution;
    assert es[3].payload.relayed.RelayDone? && ORDER[3] == RelayResult;
    assert es[4].payload.validation.ValidationFailed? && ORDER[4] == GateValidation;
    assert es[5].payload.revision.Queued? && ORDER[5] == RevisionDisposition;
    assert ORDER[0] == DispatchPrepared && ORDER[1] == DispatchSubmitted;
  }

  /** The only stream of the descendant's job is its review. */
  lemma DescendantJobs(s: Store, id: Identity, child: Identity, sha: string, commit: string)
    requires InOrder(RevisedStory(id, child, sha, commit)) && Tells(s, RevisedStory(id, child, sha, commit))
    requires SameWork(id, child) && child.job != id.job
    ensures HeadsForJob(s, ScopeOf(id), child.job, PublicationReview) == {Stream(child, PublicationReview)}
    ensures HeadsForJob(s, ScopeOf(id), child.job, RevisionDisposition) == {}
    ensures OneAttemptPerJob(s)
    ensures Stream(child, PublicationReview) in s.heads
    ensures s.heads[Stream(child, PublicationReview)] == HeadOf(Reviewed(child, sha, commit))
  {
    var es := RevisedStory(id, child, sha, commit);
    RevisedIdentities(id, child, sha, commit);
    hide RevisedStory;
    assert s.heads[StreamOf(es[6])] == HeadOf(es[6]);
    hide KindOf;
    forall stream | stream in s.heads ensures stream.identity.job == child.job <==> stream == Stream(child, PublicationReview) {
      var i :| 0 <= i < |es| && StreamOf(es[i]) == stream;
    }
  }

  predicate SameWork(a: Identity, b: Identity) { a.generation == b.generation && a.workItem == b.workItem }

  lemma RevisedIdentities(id: Identity, child: Identity, sha: string, commit: string)
    ensures
      var es := RevisedStory(id, child, sha, commit);
      && |es| == 7 && (forall i :: 0 <= i < 6 ==> es[i].identity == id)
      && es[6] == Reviewed(child, sha, commit) && StreamOf(es[6]) == Stream(child, PublicationReview)
  {}

  /** A failed candidate whose queued descendant was drafted, with no other stream of the descendant's job. */
  ghost predicate RevisedAndDrafted(s: Store, id: Identity, child: Identity) {
    && QueuedShape(HeadsOf(s, id)) && HeadsOf(s, id)[RevisionDisposition].id.payload.descendant == Some(child.job)
    && HeadsForJob(s, ScopeOf(id), child.job, PublicationReview) == {Stream(child, PublicationReview)}
    && HeadsForJob(s, ScopeOf(id), child.job, RevisionDisposition) == {}
    && Stream(child, PublicationReview) in s.heads
    && s.heads[Stream(child, PublicationReview)].id.payload.ReviewPayload?
    && s.heads[Stream(child, PublicationReview)].id.payload.review.Drafted?
  }

  /** What the revised story leaves behind. */
  lemma RevisedStore(id: Identity, child: Identity, sha: string, commit: string)
    requires ValidIdentity(id) && ValidIdentity(child) && IsSha256(sha) && IsCommit(commit)
    requires SameWork(id, child) && child.job != id.job
    ensures
      var s := Run(EMPTY_STORE, RevisedStory(id, child, sha, commit));
      Sound(s) && Headed(s) && OneAttemptPerJob(s) && RevisedAndDrafted(s, id, child)
  {
    hide IsHex, IsSha256, IsCommit, ValidIdentity, Sound, Headed, OpensStream, Run, InOrder, OneAttemptPerJob;
    hide QueuedShape, HeadsForJob, HeadsOf, Tells;
    RevisedOpens(id, child, sha, commit);
    var es := RevisedStory(id, child, sha, commit);
    StoryTold(es);
    var s := Run(EMPTY_STORE, es);
    RevisedIdentities(id, child, sha, commit);
    DescendantJobs(s, id, child, sha, commit);
    HeadsTold(es, s, id, 6);
    RevisedShape(id, HeadsOf(s, id), child, sha, commit);
  }

  lemma SecondIsNew(s: Store, id: Identity, child: Identity, e: Emission)
    requires HeadsForJob(s, ScopeOf(id), child.job, PublicationReview) == {Stream(child, PublicationReview)}
    requires InScope(StreamOf(e), ScopeOf(id), child.job, PublicationReview) && e.identity != child
    ensures StreamOf(e) !in s.heads && StreamOf(e) != Stream(child, PublicationReview)
  {
    assert StreamOf(e) !in HeadsForJob(s, ScopeOf(id), child.job, PublicationReview);
  }

  lemma SecondReviewReopens(s: Store, id: Identity, child: Identity, e: Emission)
    requires Sound(s) && Headed(s) && RevisedAndDrafted(s, id, child) && child.job != "" && Strip(child.job) == child.job
    requires OpensStream(e) && InScope(StreamOf(e), ScopeOf(id), child.job, PublicationReview) && e.identity != child
    ensures Emit(s, e).1.Ok? && Reduce(s, id, false).itemTerminal && !Reduce(Emit(s, e).0, id, false).itemTerminal
  {
    var drafted := Stream(child, PublicationReview);
    hide Strip, StripLeft, Sound, Headed, Reduce, QueuedShape, HeadsOf, ValidEmission;
    SecondIsNew(s, id, child, e);
    OpenedStream(s, e);
    hide Emit, ValidEmission, InScope, ScopeOf, HeadsForJob;
    assert QueuedDescendant(s, ScopeOf(id), child.job).None?;
    hide QueuedDescendant;
    SharedJobUndoesTerminality(s, e, id, drafted, child.job);
  }

  /**
   An attempt whose candidate failed but whose queued descendant was drafted ends its item, and does so no
   more once a second attempt at the descendant's job has a review: the emitter accepts it.
   */
  lemma SecondAttemptReopensTheItem(id: Identity, child: Identity, sibling: Identity, sha: string, commit: string)
    requires ValidIdentity(id) && ValidIdentity(child) && ValidIdentity(sibling) && IsSha256(sha) && IsCommit(commit)
    requires SameWork(id, child) && child.job != id.job && Strip(child.job) == child.job
    requires SameJob(child, sibling) && child != sibling
    ensures
      var s := Run(EMPTY_STORE, RevisedStory(id, child, sha, commit));
      var second := Emit(s, Reviewed(sibling, sha, commit));
      && Sound(s) && OneAttemptPerJob(s) && Reduce(s, id, false).itemTerminal
      && second.1.Ok? && !Reduce(second.0, id, false).itemTerminal
  {
    assert child.job != "";
    var e := Reviewed(sibling, sha, commit);
    assert InScope(StreamOf(e), ScopeOf(id), child.job, PublicationReview);
    hide *;
    RevisedStore(id, child, sha, commit);
    DecisionsOpen(sibling, false, child.job, sha, commit);
    SecondReviewReopens(Run(EMPTY_STORE, RevisedStory(id, child, sha, commit)), id, child, e);
  }

  // ---- and what refill is still told ----

  lemma FirstPublish(snapshot: Snapshot, now: string)
    ensures
      var r := Publish(EMPTY_DISK, snapshot, now, 5);
      r.Ok? && Settled(r.value.disk) && r.value.disk.attempts == map[snapshot.identity := snapshot]
  {
    assert Latest(JournalOf(EMPTY_DISK, snapshot.identity)) == Ok(None);
    hide Latest;
    var d := Publish(EMPTY_DISK, snapshot, now, 5).value.disk;
    assert d.attempts == map[snapshot.identity := snapshot];
    assert SettledAt(d, snapshot.identity);
  }

  lemma OnlyMatch(d: Disk, snapshot: Snapshot)
    requires d.attempts == map[snapshot.identity := snapshot]
    ensures Matching(d, snapshot.identity.job, Some(snapshot.identity.generation)) == {snapshot.identity}
  {}

  /**
   Told to the end: the snapshot of that attempt is recorded while its descendant is drafted, the second
   attempt then has its review, and the item is still reported terminal from the recorded snapshot.
   */
  lemma LostDraftHappens(id: Identity, child: Identity, sibling: Identity, sha: string, commit: string, now: string, required: bool)
    requires ValidIdentity(id) && ValidIdentity(child) && ValidIdentity(sibling) && IsSha256(sha) && IsCommit(commit)
    requires SameWork(id, child) && child.job != id.job && Strip(child.job) == child.job
    requires SameJob(child, sibling) && child != sibling
    ensures
      var s := Run(EMPTY_STORE, RevisedStory(id, child, sha, commit));
      var t := Emit(s, Reviewed(sibling, sha, commit)).0;
      var recorded := Publish(EMPTY_DISK, Reduce(s, id, false), now, 5);
      && recorded.Ok?
      && Classify(t, recorded.value.disk, id.job, Some(id.generation), required) == Ok(Classified(ItemTerminal, Reduce(s, id, false)))
      && !Reduce(t, id, false).itemTerminal
  {
    var e := Reviewed(sibling, sha, commit);
    assert e.identity == sibling && sibling.job == child.job;
    hide *;
    SecondAttemptReopensTheItem(id, child, sibling, sha, commit);
    var s := Run(EMPTY_STORE, RevisedStory(id, child, sha, commit));
    var snapshot := Reduce(s, id, false);
    TerminalityLostExactly(s, e, id, false);
    ReductionIsReduced(s, id, false);
    FirstPublish(snapshot, now);
    var d := Publish(EMPTY_DISK, snapshot, now, 5).value.disk;
    OnlyMatch(d, snapshot);
    LostDraftIsStillReported(s, e, d, id, required);
  }
}

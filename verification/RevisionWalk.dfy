/** Following queued revisions from job to job until one of them has been drafted. */
module RevisionWalk {
  import opened Outcomes
  import opened Collections
  import opened LifecycleEvidence
  import opened Text

  /** The attempts the walk stays within: one generation's attempts at one work item. */
  datatype Scope = Scope(generation: string, workItem: string)

  predicate InScope(stream: Stream, scope: Scope, job: string, kind: Kind) {
    && stream.kind == kind && stream.identity.job == job
    && stream.identity.generation == scope.generation && stream.identity.workItem == scope.workItem
  }

  function HeadsForJob(s: Store, scope: Scope, job: string, kind: Kind): set<Stream> {
    set stream | stream in s.heads && InScope(stream, scope, job, kind)
  }

  /** The payload for a job's stream, when exactly one head matches the job. */
  function PayloadForJob(s: Store, scope: Scope, job: string, kind: Kind): Option<Payload> {
    var matches := HeadsForJob(s, scope, job, kind);
    if |matches| != 1 then None
    else
      assert forall a, b :: a in matches && b in matches ==> a == b by {
        forall a, b | a in matches && b in matches ensures a == b {
          SingletonIsUnique(matches, a, b);
        }
      }
      var stream :| stream in matches;
      Some(s.heads[stream].id.payload)
  }

  /** The reason a job counts as drafted, if it does. */
  function DraftedReason(s: Store, scope: Scope, job: string): Option<Reason> {
    match PayloadForJob(s, scope, job, PublicationReview)
    case Some(ReviewPayload(Drafted, Some(reason), _, _, _, _, _, _, _)) => Some(reason)
    case _ => None
  }

  /** The job a queued revision hands over to. */
  function QueuedDescendant(s: Store, scope: Scope, job: string): Option<string> {
    match PayloadForJob(s, scope, job, RevisionDisposition)
    case Some(RevisionPayload(Queued, descendant, _, _, _)) =>
      var next := if descendant.Some? then Strip(descendant.value) else "";
      if next == "" then None else Some(next)
    case _ => None
  }

  function JobsOf(s: Store): set<string> {
    set stream | stream in s.heads :: stream.identity.job
  }

  lemma QueuedIsKnown(s: Store, scope: Scope, job: string)
    requires QueuedDescendant(s, scope, job).Some?
    ensures job in JobsOf(s)
  {
    var matches := HeadsForJob(s, scope, job, RevisionDisposition);
    assert |matches| == 1;
    var stream :| stream in matches;
  }

  /** The walk: `seen` grows until a drafted job, a dead end or a repetition is met. */
  function Walk(s: Store, scope: Scope, current: string, seen: set<string>): Option<Reason>
    decreases JobsOf(s) - seen
  {
    if current == "" || current in seen then None
    else
      match DraftedReason(s, scope, current)
      case Some(reason) => Some(reason)
      case None =>
        match QueuedDescendant(s, scope, current)
        case None => None
        case Some(next) =>
          QueuedIsKnown(s, scope, current);
          Walk(s, scope, next, seen + {current})
  }

  method DescendantDraftedReason(s: Store, scope: Scope, descendant: Option<string>) returns (r: Option<Reason>)
    ensures r == DescendantReason(s, scope, descendant)
  {
    var current := if descendant.Some? then Strip(descendant.value) else "";
    var seen: set<string> := {};
    while current != "" && current !in seen
      invariant Walk(s, scope, current, seen) == DescendantReason(s, scope, descendant)
      decreases JobsOf(s) - seen, current != "" && current !in seen
    {
      var drafted := DraftedReason(s, scope, current);
      if drafted.Some? {
        return drafted;
      }
      var next := QueuedDescendant(s, scope, current);
      if next.None? {
        return None;
      }
      QueuedIsKnown(s, scope, current);
      seen := seen + {current};
      current := next.value;
    }
    return None;
  }

  function DescendantReason(s: Store, scope: Scope, descendant: Option<string>): Option<Reason> {
    Walk(s, scope, if descendant.Some? then Strip(descendant.value) else "", {})
  }

  // ---- what the walk decides ----

  /** The job `n` queued links after `start`, if the chain is that long. */
  function LinkedJob(s: Store, scope: Scope, start: string, n: nat): Option<string> {
    if n == 0 then (if start == "" then None else Some(start))
    else
      match LinkedJob(s, scope, start, n - 1)
      case None => None
      case Some(job) => QueuedDescendant(s, scope, job)
  }

  lemma LinkedStep(s: Store, scope: Scope, start: string, n: nat)
    requires n > 0
    ensures
      LinkedJob(s, scope, start, n) ==
        match LinkedJob(s, scope, start, n - 1) case None => None case Some(job) => QueuedDescendant(s, scope, job)
  {}

  /** The job `n` links on is drafted with this reason, and none before it is drafted. */
  ghost predicate FirstDrafted(s: Store, scope: Scope, start: string, n: nat, reason: Reason) {
    && LinkedJob(s, scope, start, n).Some?
    && DraftedReason(s, scope, LinkedJob(s, scope, start, n).value) == Some(reason)
    && forall k :: 0 <= k < n ==>
         LinkedJob(s, scope, start, k).Some? && DraftedReason(s, scope, LinkedJob(s, scope, start, k).value).None?
  }

  lemma {:induction false} LinkedJobShift(s: Store, scope: Scope, start: string, n: nat)
    requires start != "" && QueuedDescendant(s, scope, start).Some?
    ensures LinkedJob(s, scope, QueuedDescendant(s, scope, start).value, n) == LinkedJob(s, scope, start, n + 1)
    decreases n
  {
    if n > 0 {
      LinkedJobShift(s, scope, start, n - 1);
    } else {
      assert LinkedJob(s, scope, start, 0) == Some(start);
    }
  }

  /** A reason found by the walk belongs to the first drafted job along the queued links. */
  lemma {:induction false} WalkFindsFirst(s: Store, scope: Scope, current: string, seen: set<string>) returns (n: nat)
    requires Walk(s, scope, current, seen).Some?
    ensures FirstDrafted(s, scope, current, n, Walk(s, scope, current, seen).value)
    decreases JobsOf(s) - seen
  {
    hide DraftedReason, QueuedDescendant;
    if DraftedReason(s, scope, current).Some? {
      n := 0;
    } else {
      QueuedIsKnown(s, scope, current);
      var next := QueuedDescendant(s, scope, current).value;
      var m := WalkFindsFirst(s, scope, next, seen + {current});
      n := m + 1;
      LinkedJobShift(s, scope, current, m);
      forall k | 0 <= k < n
        ensures LinkedJob(s, scope, current, k).Some?
        ensures DraftedReason(s, scope, LinkedJob(s, scope, current, k).value).None?
      {
        if k > 0 {
          LinkedJobShift(s, scope, current, k - 1);
        }
      }
    }
  }

  /** Jobs already passed were not drafted and link only to passed jobs or to the current one. */
  ghost predicate Passed(s: Store, scope: Scope, seen: set<string>, current: string) {
    forall job :: job in seen ==>
      && DraftedReason(s, scope, job).None?
      && match QueuedDescendant(s, scope, job) case None => true case Some(next) => next in seen || next == current
  }

  lemma {:induction false} ChainStaysPassed(s: Store, scope: Scope, seen: set<string>, start: string, n: nat)
    requires start in seen && start != ""
    requires forall job :: job in seen ==>
      DraftedReason(s, scope, job).None? && (QueuedDescendant(s, scope, job).Some? ==> QueuedDescendant(s, scope, job).value in seen)
    ensures LinkedJob(s, scope, start, n).Some? ==> LinkedJob(s, scope, start, n).value in seen
    decreases n
  {
    if n > 0 {
      ChainStaysPassed(s, scope, seen, start, n - 1);
    }
  }

  /** When the walk finds nothing, cycles included, no job on the chain is drafted. */
  lemma {:induction false} WalkMissesNothing(s: Store, scope: Scope, start: string, current: string, seen: set<string>, n: nat)
    requires Walk(s, scope, current, seen).None? && Passed(s, scope, seen, current)
    requires start == current || start in seen
    requires "" !in seen
    ensures LinkedJob(s, scope, start, n).Some? ==> DraftedReason(s, scope, LinkedJob(s, scope, start, n).value).None?
    decreases JobsOf(s) - seen
  {
    if current == "" || current in seen {
      if start != "" {
        ChainCloses(s, scope, seen, start, current, n);
      } else {
        NothingFromNothing(s, scope, n);
      }
    } else {
      var more := seen + {current};
      match QueuedDescendant(s, scope, current)
      case None => ChainStaysPassed(s, scope, more, start, n);
      case Some(next) =>
        QueuedIsKnown(s, scope, current);
        WalkMissesNothing(s, scope, start, next, more, n);
    }
  }

  lemma ChainCloses(s: Store, scope: Scope, seen: set<string>, start: string, current: string, n: nat)
    requires Passed(s, scope, seen, current) && (current == "" || current in seen)
    requires start != "" && (start == current || start in seen)
    ensures LinkedJob(s, scope, start, n).Some? ==> DraftedReason(s, scope, LinkedJob(s, scope, start, n).value).None?
  {
    ChainStaysPassed(s, scope, seen, start, n);
  }

  lemma {:induction false} NothingFromNothing(s: Store, scope: Scope, n: nat)
    ensures LinkedJob(s, scope, "", n).None?
    decreases n
  {
    if n > 0 {
      NothingFromNothing(s, scope, n - 1);
    }
  }

  /** The job `n` queued links after `start` exists and is drafted. */
  predicate DraftedAt(s: Store, scope: Scope, start: string, n: nat) {
    var job := LinkedJob(s, scope, start, n);
    job.Some? && DraftedReason(s, scope, job.value).Some?
  }

  /** The walk returns a reason exactly when some job along the queued links is drafted, and it is the first one's. */
  lemma WalkDecidesReachability(s: Store, scope: Scope, start: string)
    ensures
      var r := Walk(s, scope, start, {});
      && (r.Some? <==> exists n: nat :: DraftedAt(s, scope, start, n))
      && (r.Some? ==> exists n: nat :: FirstDrafted(s, scope, start, n, r.value))
  {
    var r := Walk(s, scope, start, {});
    if r.Some? {
      var n := WalkFindsFirst(s, scope, start, {});
      assert FirstDrafted(s, scope, start, n, r.value) && DraftedAt(s, scope, start, n);
    } else {
      forall n: nat ensures !DraftedAt(s, scope, start, n) {
        WalkMissesNothing(s, scope, start, start, {}, n);
      }
    }
  }
}

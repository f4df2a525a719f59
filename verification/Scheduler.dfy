/** Running tasks on several lanes at once, holding all of their leases or none. */
module Scheduler {
  import opened Outcomes
  import opened Leases
  import opened Lanes

  /** What others do to the leases before an acquisition, and when the acquisition happens. */
  datatype Moment = Moment(others: seq<Op>, now: int)

  /** A task, its lane, and whether a backend and a workspace are found for it. */
  datatype Task = Task(id: string, lane: Lane, placed: bool)

  datatype Failure =
    | NoTask | TaskIdsRepeat | Incompatible(conflict: LaneConflict) | NotPlaced
    | LeaseRefused(why: Refusal) | BadInterval | TaskFailed | HeartbeatFailed

  function LanesOf(tasks: seq<Task>): (lanes: seq<Lane>)
    ensures |lanes| == |tasks| && forall i :: 0 <= i < |lanes| ==> lanes[i] == tasks[i].lane
  {
    if tasks == [] then [] else [tasks[0].lane] + LanesOf(tasks[1..])
  }

  /** Why the tasks cannot be planned, if they cannot. */
  function Unplanned(tasks: seq<Task>): Option<Failure> {
    var conflict := Incompatibility(LanesOf(tasks));
    if tasks == [] then Some(NoTask)
    else if exists i, j :: 0 <= i < j < |tasks| && tasks[i].id == tasks[j].id then Some(TaskIdsRepeat)
    else if conflict.Some? then Some(Incompatible(conflict.value))
    else if exists i :: 0 <= i < |tasks| && !tasks[i].placed then Some(NotPlaced)
    else None
  }

  /** Acquired lanes in order, and why acquiring stopped early if it did. */
  datatype Acquisition = Acquisition(store: Store, lanes: seq<string>, refusal: Option<Failure>)

  function AcquireInTurn(s: Store, lanes: seq<string>, owner: string, ttl: int, moments: seq<Moment>): Acquisition
    requires |moments| == |lanes|
    decreases |lanes|
  {
    if lanes == [] then Acquisition(s, [], None)
    else
      var done := Acquired(AfterAll(s, moments[0].others), lanes[0], owner, ttl, moments[0].now);
      if done.reply.Refused? then Acquisition(done.store, [], Some(LeaseRefused(done.reply.why)))
      else
        var rest := AcquireInTurn(done.store, lanes[1..], owner, ttl, moments[1..]);
        Acquisition(rest.store, [lanes[0]] + rest.lanes, rest.refusal)
  }

  datatype Freed = Freed(store: Store, refusal: Option<Failure>)

  /** Releases from the last lane to the first, and stops at the first refusal. */
  function ReleaseInTurn(s: Store, lanes: seq<string>, owner: string, now: int): Freed
    decreases |lanes|
  {
    if lanes == [] then Freed(s, None)
    else
      var done := ReleasedLane(s, lanes[|lanes| - 1], owner, now);
      if done.reply.Refused? then Freed(done.store, Some(LeaseRefused(done.reply.why))) else ReleaseInTurn(done.store, lanes[..|lanes| - 1], owner, now)
  }

  /**
   A run: `during` is what its heartbeat and others do to the leases while the tasks run; the tasks may fail.
   Without an interval a positive one is computed.
   */
  datatype Run = Run(owner: string, ttl: int, interval: Option<real>, moments: seq<Moment>, during: seq<Op>, fails: bool, end: int)

  predicate BadBeat(run: Run) { run.interval.Some? && run.interval.value <= 0.0 }

  /** One of the run's own renewals is refused. */
  predicate RenewalRefused(s: Store, ops: seq<Op>, owner: string)
    decreases |ops|
  {
    ops != [] && (
      || (ops[0].Renew? && ops[0].owner == owner && Performed(s, ops[0]).reply.Refused?)
      || RenewalRefused(Performed(s, ops[0]).store, ops[1..], owner))
  }

  function LaneIds(lanes: seq<Lane>): (ids: seq<string>)
    ensures |ids| == |lanes| && forall i :: 0 <= i < |ids| ==> ids[i] == lanes[i].id
  {
    if lanes == [] then [] else [lanes[0].id] + LaneIds(lanes[1..])
  }

  /** The leases just before releasing starts, and why the run failed by then if it did. */
  function Working(s: Store, tasks: seq<Task>, run: Run): Acquisition
    requires |run.moments| == |tasks|
  {
    var a := AcquireInTurn(s, LaneIds(LanesOf(tasks)), run.owner, run.ttl, run.moments);
    if a.refusal.Some? then a
    else if BadBeat(run) then a.(refusal := Some(BadInterval))
    else
      var why := if run.fails then Some(TaskFailed) else if RenewalRefused(a.store, run.during, run.owner) then Some(HeartbeatFailed) else None;
      a.(store := AfterAll(a.store, run.during), refusal := why)
  }

  function Finished(s: Store, tasks: seq<Task>, run: Run): Freed
    requires |run.moments| == |tasks|
  {
    if Unplanned(tasks).Some? then Freed(s, Unplanned(tasks))
    else
      var a := Working(s, tasks, run);
      var freed := ReleaseInTurn(a.store, a.lanes, run.owner, run.end);
      if freed.refusal.Some? then freed else Freed(freed.store, a.refusal)
  }

  class ParallelScheduler {
    const store: FileLeaseStore

    constructor (store: FileLeaseStore)
      ensures this.store == store
    {
      this.store := store;
    }

    /** Others, or this run's own heartbeat, act on the leases; tells whether a renewal of its own was refused. */
    method Elsewhere(ops: seq<Op>, owner: string) returns (refused: bool)
      modifies store
      ensures store.Contents() == AfterAll(old(store.Contents()), ops)
      ensures refused == RenewalRefused(old(store.Contents()), ops, owner)
    {
      hide Performed;
      refused := false;
      for i := 0 to |ops|
        invariant AfterAll(old(store.Contents()), ops) == AfterAll(store.Contents(), ops[i..])
        invariant RenewalRefused(old(store.Contents()), ops, owner) == (refused || RenewalRefused(store.Contents(), ops[i..], owner))
      {
        assert ops[i..][0] == ops[i] && ops[i..][1..] == ops[i + 1..];
        var reply := store.Do(ops[i]);
        if ops[i].Renew? && ops[i].owner == owner && reply.Refused? {
          refused := true;
        }
      }
      assert ops[|ops|..] == [];
    }

    method AcquireLanes(lanes: seq<string>, owner: string, ttl: int, moments: seq<Moment>)
      returns (acquired: seq<string>, refusal: Option<Failure>)
      requires |moments| == |lanes|
      modifies store
      ensures Acquisition(store.Contents(), acquired, refusal) == AcquireInTurn(old(store.Contents()), lanes, owner, ttl, moments)
    {
      hide Acquired, AfterAll, RenewalRefused;
      acquired, refusal := [], None;
      ghost var total := AcquireInTurn(store.Contents(), lanes, owner, ttl, moments);
      for i := 0 to |lanes|
        invariant
          var rest := AcquireInTurn(store.Contents(), lanes[i..], owner, ttl, moments[i..]);
          total == Acquisition(rest.store, acquired + rest.lanes, rest.refusal)
      {
        assert lanes[i..][0] == lanes[i] && lanes[i..][1..] == lanes[i + 1..];
        assert moments[i..][0] == moments[i] && moments[i..][1..] == moments[i + 1..];
        var _ := Elsewhere(moments[i].others, owner);
        var reply := store.AcquireLane(lanes[i], owner, ttl, moments[i].now);
        if reply.Refused? {
          assert acquired + [] == acquired;
          return acquired, Some(LeaseRefused(reply.why));
        }
        ghost var rest := AcquireInTurn(store.Contents(), lanes[i + 1..], owner, ttl, moments[i + 1..]);
        assert acquired + ([lanes[i]] + rest.lanes) == acquired + [lanes[i]] + rest.lanes;
        acquired := acquired + [lanes[i]];
      }
      assert lanes[|lanes|..] == [] && acquired + [] == acquired;
    }

    method ReleaseLanes(lanes: seq<string>, owner: string, ghost now: int) returns (refusal: Option<Failure>)
      modifies store
      ensures Freed(store.Contents(), refusal) == ReleaseInTurn(old(store.Contents()), lanes, owner, now)
    {
      hide ReleasedLane;
      var left := |lanes|;
      assert lanes[..left] == lanes;
      while left > 0
        invariant 0 <= left <= |lanes|
        invariant ReleaseInTurn(old(store.Contents()), lanes, owner, now) == ReleaseInTurn(store.Contents(), lanes[..left], owner, now)
      {
        assert lanes[..left][left - 1] == lanes[left - 1] && lanes[..left][..left - 1] == lanes[..left - 1];
        var reply := store.ReleaseLane(lanes[left - 1], owner, now);
        if reply.Refused? {
          return Some(LeaseRefused(reply.why));
        }
        left := left - 1;
      }
      assert lanes[..0] == [];
      refusal := None;
    }

    /** Distinct task ids first, then compatible lanes, then backends and workspaces. */
    method PlanTasks(tasks: seq<Task>) returns (failure: Option<Failure>)
      ensures failure == Unplanned(tasks)
    {
      hide Incompatibility;
      if tasks == [] {
        return Some(NoTask);
      }
      var ids: set<string> := {};
      for i := 0 to |tasks|
        invariant ids == set j | 0 <= j < i :: tasks[j].id
        invariant forall j, k :: 0 <= j < k < i ==> tasks[j].id != tasks[k].id
      {
        if tasks[i].id in ids {
          ghost var j :| 0 <= j < i && tasks[j].id == tasks[i].id;
          return Some(TaskIdsRepeat);
        }
        ids := ids + {tasks[i].id};
      }
      if Incompatibility(LanesOf(tasks)).Some? {
        return Some(Incompatible(Incompatibility(LanesOf(tasks)).value));
      }
      for i := 0 to |tasks|
        invariant forall j :: 0 <= j < i ==> tasks[j].placed
      {
        if !tasks[i].placed {
          return Some(NotPlaced);
        }
      }
      failure := None;
    }

    method RunTasks(tasks: seq<Task>, run: Run) returns (failure: Option<Failure>)
      requires |run.moments| == |tasks|
      modifies store
      ensures Freed(store.Contents(), failure) == Finished(old(store.Contents()), tasks, run)
    {
      hide AcquireInTurn, ReleaseInTurn, AfterAll, Unplanned, RenewalRefused, BadBeat;
      failure := PlanTasks(tasks);
      if failure.Some? {
        return;
      }
      var acquired;
      acquired, failure := AcquireLanes(LaneIds(LanesOf(tasks)), run.owner, run.ttl, run.moments);
      if failure.None? {
        if BadBeat(run) {
          failure := Some(BadInterval);
        } else {
          var refused := Elsewhere(run.during, run.owner);
          failure := if run.fails then Some(TaskFailed) else if refused then Some(HeartbeatFailed) else None;
        }
      }
      var stuck := ReleaseLanes(acquired, run.owner, run.end);
      if stuck.Some? {
        failure := stuck;
      }
    }
  }

  // ---- nothing is left held ----

  predicate Distinct(ids: seq<string>) { forall i, j :: 0 <= i < j < |ids| ==> ids[i] != ids[j] }

  /** A release of this lane would be refused: its lock is taken, or its lease is someone else's. */
  predicate Stuck(s: Store, lane: string, owner: string) {
    !ValidId(lane) || lane in s.locks || (lane in s.leases && s.leases[lane].owner != owner)
  }

  predicate HeldBy(s: Store, lane: string, owner: string) { lane in s.leases && s.leases[lane].owner == owner }

  /**
   After releasing, a lane is still held exactly when it was held and a lane acquired no earlier is
   stuck; nothing else changes hands.
   */
  lemma {:induction false} ReleaseFreesUpToStuck(s: Store, lanes: seq<string>, owner: string, now: int)
    requires Distinct(lanes)
    ensures
      var freed := ReleaseInTurn(s, lanes, owner, now);
      && (forall i :: 0 <= i < |lanes| ==>
        (HeldBy(freed.store, lanes[i], owner) <==> HeldBy(s, lanes[i], owner) && exists j :: i <= j < |lanes| && Stuck(s, lanes[j], owner)))
      && (forall lane :: lane !in lanes ==> (lane in freed.store.leases <==> lane in s.leases)
                                            && (lane in s.leases ==> freed.store.leases[lane] == s.leases[lane]))
      && (freed.refusal.Some? <==> exists j :: 0 <= j < |lanes| && Stuck(s, lanes[j], owner))
      && freed.store.locks == s.locks
    decreases |lanes|
  {
    if lanes != [] {
      var n := |lanes| - 1;
      var last, front := lanes[n], lanes[..n];
      var done := ReleasedLane(s, last, owner, now);
      assert Stuck(s, last, owner) <==> done.reply.Refused?;
      if Stuck(s, last, owner) {
        assert Stuck(s, lanes[n], owner);
      } else {
        ReleaseFreesUpToStuck(done.store, front, owner, now);
        hide ReleasedLane;
        var freed := ReleaseInTurn(done.store, front, owner, now);
        ReleasingOne(s, last, owner, now);
        forall lane | lane != last ensures Stuck(done.store, lane, owner) == Stuck(s, lane, owner) && HeldBy(done.store, lane, owner) == HeldBy(s, lane, owner) {
        }
        assert last !in front;
        assert forall i :: 0 <= i < n ==> front[i] == lanes[i] && lanes[i] != last;
        hide Stuck, HeldBy;
        forall i | 0 <= i < |lanes|
          ensures HeldBy(freed.store, lanes[i], owner) <==> HeldBy(s, lanes[i], owner) && exists j :: i <= j < |lanes| && Stuck(s, lanes[j], owner)
        {
          if i < n {
            assert (exists j :: i <= j < n && Stuck(done.store, front[j], owner)) <==> exists j :: i <= j < |lanes| && Stuck(s, lanes[j], owner) by {
              StuckCarries(s, done.store, lanes, front, owner, i);
            }
          } else {
            assert !HeldBy(freed.store, last, owner) by { NotHeld(freed.store, done.store, last, owner); }
          }
        }
        StuckCarries(s, done.store, lanes, front, owner, 0);
      }
    }
  }

  lemma StuckCarries(s: Store, t: Store, lanes: seq<string>, front: seq<string>, owner: string, i: int)
    requires lanes != [] && 0 <= i < |lanes| && !Stuck(s, lanes[|lanes| - 1], owner) && front == lanes[..|lanes| - 1]
    requires forall j :: 0 <= j < |front| ==> Stuck(t, front[j], owner) == Stuck(s, front[j], owner)
    ensures (exists j :: i <= j < |front| && Stuck(t, front[j], owner)) <==> exists j :: i <= j < |lanes| && Stuck(s, lanes[j], owner)
  {
    hide Stuck;
    if j :| i <= j < |lanes| && Stuck(s, lanes[j], owner) {
      assert j < |front| && Stuck(t, front[j], owner);
    }
    if j :| i <= j < |front| && Stuck(t, front[j], owner) {
      assert Stuck(s, lanes[j], owner);
    }
  }

  lemma ReleasingOne(s: Store, lane: string, owner: string, now: int)
    requires !Stuck(s, lane, owner)
    ensures
      var t := ReleasedLane(s, lane, owner, now).store;
      && t.leases == s.leases - {lane} && t.locks == s.locks && lane !in t.leases
  {
    if lane !in s.leases {
      assert s.leases - {lane} == s.leases;
    }
  }

  lemma NotHeld(t: Store, u: Store, lane: string, owner: string)
    requires lane !in u.leases && (lane in t.leases <==> lane in u.leases)
    ensures !HeldBy(t, lane, owner)
  {}

  lemma {:induction false} AcquiredArePlanned(s: Store, lanes: seq<string>, owner: string, ttl: int, moments: seq<Moment>)
    requires |moments| == |lanes|
    ensures
      var a := AcquireInTurn(s, lanes, owner, ttl, moments);
      a.lanes <= lanes && (a.refusal.None? <==> a.lanes == lanes)
    decreases |lanes|
  {
    if lanes != [] {
      hide Acquired, AfterAll;
      var done := Acquired(AfterAll(s, moments[0].others), lanes[0], owner, ttl, moments[0].now);
      if !done.reply.Refused? {
        AcquiredArePlanned(done.store, lanes[1..], owner, ttl, moments[1..]);
        PrefixGrows(AcquireInTurn(done.store, lanes[1..], owner, ttl, moments[1..]).lanes, lanes);
      }
    }
  }

  lemma PrefixGrows(part: seq<string>, lanes: seq<string>)
    requires lanes != [] && part <= lanes[1..]
    ensures [lanes[0]] + part <= lanes && ([lanes[0]] + part == lanes <==> part == lanes[1..])
  {
    assert lanes == [lanes[0]] + lanes[1..];
  }

  /** The lanes a run acquired are distinct, and all of its tasks' when it gets as far as working. */
  lemma AcquiredAreDistinct(s: Store, tasks: seq<Task>, run: Run)
    requires |run.moments| == |tasks| && Unplanned(tasks).None?
    ensures
      var acquisition := AcquireInTurn(s, LaneIds(LanesOf(tasks)), run.owner, run.ttl, run.moments);
      && Distinct(Working(s, tasks, run).lanes) && Working(s, tasks, run).lanes == acquisition.lanes
      && (acquisition.refusal.None? ==> acquisition.lanes == LaneIds(LanesOf(tasks)))
  {
    assert Incompatibility(LanesOf(tasks)).None?;
    hide Incompatibility, AcquireInTurn, AfterAll, Unplanned, RenewalRefused;
    AcquiredArePlanned(s, LaneIds(LanesOf(tasks)), run.owner, run.ttl, run.moments);
    assert Distinct(LaneIds(LanesOf(tasks))) by { CompatibleIdsDiffer(LanesOf(tasks)); }
  }

  /**
   Whichever way a run ends, at the k-th acquisition, in a task, by its heartbeat or normally, none of the
   lanes it acquired is still held by it, provided none of them is locked or in other hands when it releases.
   */
  lemma RunLeavesNothingHeld(s: Store, tasks: seq<Task>, run: Run, i: int)
    requires |run.moments| == |tasks| && Unplanned(tasks).None?
    requires
      var a := Working(s, tasks, run);
      0 <= i < |a.lanes| && forall j :: 0 <= j < |a.lanes| ==> !Stuck(a.store, a.lanes[j], run.owner)
    ensures !HeldBy(Finished(s, tasks, run).store, Working(s, tasks, run).lanes[i], run.owner)
  {
    hide Unplanned, ReleaseInTurn, Stuck, HeldBy;
    var a := Working(s, tasks, run);
    AcquiredAreDistinct(s, tasks, run);
    hide Working;
    ReleaseFreesUpToStuck(a.store, a.lanes, run.owner, run.end);
  }

  /**
   A run returns its tasks' evidence exactly when they can be planned, every lane was granted, the interval
   is positive, no task fails, none of its own renewals was refused, and no lane is stuck when it releases.
   */
  lemma RunSucceedsExactly(s: Store, tasks: seq<Task>, run: Run)
    requires |run.moments| == |tasks|
    ensures
      var a, held := Working(s, tasks, run), AcquireInTurn(s, LaneIds(LanesOf(tasks)), run.owner, run.ttl, run.moments);
      Finished(s, tasks, run).refusal.None? <==>
        && Unplanned(tasks).None? && held.lanes == LaneIds(LanesOf(tasks)) && !BadBeat(run) && !run.fails
        && !RenewalRefused(held.store, run.during, run.owner)
        && forall j :: 0 <= j < |a.lanes| ==> !Stuck(a.store, a.lanes[j], run.owner)
  {
    hide Unplanned, ReleaseInTurn, AcquireInTurn, AfterAll, RenewalRefused, Stuck, HeldBy;
    var a := Working(s, tasks, run);
    if Unplanned(tasks).None? {
      AcquiredAreDistinct(s, tasks, run);
      AcquiredArePlanned(s, LaneIds(LanesOf(tasks)), run.owner, run.ttl, run.moments);
      ReleaseFreesUpToStuck(a.store, a.lanes, run.owner, run.end);
    }
  }

  lemma CompatibleIdsDiffer(lanes: seq<Lane>)
    requires Incompatibility(lanes).None?
    ensures Distinct(LaneIds(lanes))
  {}
}

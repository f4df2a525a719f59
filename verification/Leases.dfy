/** Timed leases on lanes, one file and one lock per lane. */
module Leases {
  import opened Outcomes

  datatype Lease = Lease(lane: string, owner: string, acquiredAt: int, heartbeatAt: int, expiresAt: int)

  predicate ActiveAt(l: Lease, now: int) { l.expiresAt > now }

  /** A holder's time on a lane: from the instant it acquired the lease to the instant it lost it. */
  datatype Tenure = Tenure(owner: string, start: int, end: int)

  predicate Covers(t: Tenure, now: int) { t.start <= now < t.end }

  /** The lease files, the lanes whose lock file is taken, and the history of tenures on each lane. */
  datatype Store = Store(leases: map<string, Lease>, locks: set<string>, tenures: map<string, seq<Tenure>>)

  /**
   Releasing takes no time argument; `now` is when it happens. A lane's lock file is taken by a process in the
   middle of an operation, for good if it dies there, and removed when it is done.
   */
  datatype Op =
    | Acquire(lane: string, owner: string, ttl: int, now: int)
    | Renew(lane: string, owner: string, ttl: int, now: int)
    | Release(lane: string, owner: string, now: int)
    | TakeLock(lane: string, now: int)
    | DropLock(lane: string, now: int)

  datatype Refusal =
    | BadOwnerId | BadLaneId | BadTtl | OperationInProgress | StillLeased | NoLease | OwnedByAnother | LeaseExpired

  datatype Reply = Granted(lease: Lease) | Released(was: bool) | Refused(why: Refusal) | Silent

  predicate IsIdChar(c: char) { 'A' <= c <= 'Z' || 'a' <= c <= 'z' || '0' <= c <= '9' || c in "._-" }

  predicate ValidId(id: string) { id != "" && forall i :: 0 <= i < |id| ==> IsIdChar(id[i]) }

  function TenuresOn(s: Store, lane: string): seq<Tenure> { if lane in s.tenures then s.tenures[lane] else [] }

  /** The last tenure ends at another time than was foreseen. */
  function EndingAt(ts: seq<Tenure>, end: int): seq<Tenure> {
    if ts == [] then [] else ts[..|ts| - 1] + [ts[|ts| - 1].(end := end)]
  }

  function Least(a: int, b: int): int { if a < b then a else b }

  datatype Done = Done(store: Store, reply: Reply)

  function Acquired(s: Store, lane: string, owner: string, ttl: int, now: int): Done {
    if !ValidId(owner) then Done(s, Refused(BadOwnerId))
    else if ttl < 1 then Done(s, Refused(BadTtl))
    else if !ValidId(lane) then Done(s, Refused(BadLaneId))
    else if lane in s.locks then Done(s, Refused(OperationInProgress))
    else if lane in s.leases && ActiveAt(s.leases[lane], now) then Done(s, Refused(StillLeased))
    else
      var lease := Lease(lane, owner, now, now, now + ttl);
      Done(s.(leases := s.leases[lane := lease], tenures := s.tenures[lane := TenuresOn(s, lane) + [Tenure(owner, now, now + ttl)]]),
           Granted(lease))
  }

  function Renewed(s: Store, lane: string, owner: string, ttl: int, now: int): Done {
    if ttl < 1 then Done(s, Refused(BadTtl))
    else if !ValidId(lane) then Done(s, Refused(BadLaneId))
    else if lane in s.locks then Done(s, Refused(OperationInProgress))
    else if lane !in s.leases then Done(s, Refused(NoLease))
    else if s.leases[lane].owner != owner then Done(s, Refused(OwnedByAnother))
    else if !ActiveAt(s.leases[lane], now) then Done(s, Refused(LeaseExpired))
    else
      var lease := s.leases[lane].(heartbeatAt := now, expiresAt := now + ttl);
      Done(s.(leases := s.leases[lane := lease], tenures := s.tenures[lane := EndingAt(TenuresOn(s, lane), now + ttl)]), Granted(lease))
  }

  function ReleasedLane(s: Store, lane: string, owner: string, now: int): Done {
    if !ValidId(lane) then Done(s, Refused(BadLaneId))
    else if lane in s.locks then Done(s, Refused(OperationInProgress))
    else if lane !in s.leases then Done(s, Released(false))
    else if s.leases[lane].owner != owner then Done(s, Refused(OwnedByAnother))
    else
      Done(s.(leases := s.leases - {lane},
              tenures := s.tenures[lane := EndingAt(TenuresOn(s, lane), Least(s.leases[lane].expiresAt, now))]),
           Released(true))
  }

  function Performed(s: Store, op: Op): Done {
    match op
    case Acquire(lane, owner, ttl, now) => Acquired(s, lane, owner, ttl, now)
    case Renew(lane, owner, ttl, now) => Renewed(s, lane, owner, ttl, now)
    case Release(lane, owner, now) => ReleasedLane(s, lane, owner, now)
    case TakeLock(lane, _) => Done(s.(locks := s.locks + {lane}), Silent)
    case DropLock(lane, _) => Done(s.(locks := s.locks - {lane}), Silent)
  }

  class FileLeaseStore {
    var leases: map<string, Lease>
    var locks: set<string>
    ghost var tenures: map<string, seq<Tenure>>

    constructor ()
      ensures Contents() == Store(map[], {}, map[])
    {
      leases, locks, tenures := map[], {}, map[];
    }

    ghost function Contents(): Store
      reads this
    {
      Store(leases, locks, tenures)
    }

    method AcquireLane(lane: string, owner: string, ttl: int, now: int) returns (reply: Reply)
      modifies this
      ensures Done(Contents(), reply) == Acquired(old(Contents()), lane, owner, ttl, now)
    {
      if !ValidId(owner) {
        return Refused(BadOwnerId);
      }
      if ttl < 1 {
        return Refused(BadTtl);
      }
      if !ValidId(lane) {
        return Refused(BadLaneId);
      }
      if lane in locks {
        return Refused(OperationInProgress);
      }
      locks := locks + {lane};
      if lane in leases && ActiveAt(leases[lane], now) {
        reply := Refused(StillLeased);
      } else {
        var lease := Lease(lane, owner, now, now, now + ttl);
        tenures := tenures[lane := TenuresOn(Contents(), lane) + [Tenure(owner, now, now + ttl)]];
        leases := leases[lane := lease];
        reply := Granted(lease);
      }
      locks := locks - {lane};
    }

    method RenewLane(lane: string, owner: string, ttl: int, now: int) returns (reply: Reply)
      modifies this
      ensures Done(Contents(), reply) == Renewed(old(Contents()), lane, owner, ttl, now)
    {
      if ttl < 1 {
        return Refused(BadTtl);
      }
      if !ValidId(lane) {
        return Refused(BadLaneId);
      }
      if lane in locks {
        return Refused(OperationInProgress);
      }
      locks := locks + {lane};
      if lane !in leases {
        reply := Refused(NoLease);
      } else if leases[lane].owner != owner {
        reply := Refused(OwnedByAnother);
      } else if !ActiveAt(leases[lane], now) {
        reply := Refused(LeaseExpired);
      } else {
        var lease := leases[lane].(heartbeatAt := now, expiresAt := now + ttl);
        tenures := tenures[lane := EndingAt(TenuresOn(Contents(), lane), now + ttl)];
        leases := leases[lane := lease];
        reply := Granted(lease);
      }
      locks := locks - {lane};
    }

    method ReleaseLane(lane: string, owner: string, ghost now: int) returns (reply: Reply)
      modifies this
      ensures Done(Contents(), reply) == ReleasedLane(old(Contents()), lane, owner, now)
    {
      if !ValidId(lane) {
        return Refused(BadLaneId);
      }
      if lane in locks {
        return Refused(OperationInProgress);
      }
      locks := locks + {lane};
      if lane !in leases {
        reply := Released(false);
      } else if leases[lane].owner != owner {
        reply := Refused(OwnedByAnother);
      } else {
        tenures := tenures[lane := EndingAt(TenuresOn(Contents(), lane), Least(leases[lane].expiresAt, now))];
        leases := leases - {lane};
        reply := Released(true);
      }
      locks := locks - {lane};
    }

    method Do(op: Op) returns (reply: Reply)
      modifies this
      ensures Done(Contents(), reply) == Performed(old(Contents()), op)
    {
      match op
      case Acquire(lane, owner, ttl, now) => reply := AcquireLane(lane, owner, ttl, now);
      case Renew(lane, owner, ttl, now) => reply := RenewLane(lane, owner, ttl, now);
      case Release(lane, owner, now) => reply := ReleaseLane(lane, owner, now);
      case TakeLock(lane, _) => locks, reply := locks + {lane}, Silent;
      case DropLock(lane, _) => locks, reply := locks - {lane}, Silent;
    }
  }

  // ---- mutual exclusion ----

  /** Tenures follow one another. */
  predicate InTurn(ts: seq<Tenure>) { forall i, j :: 0 <= i < j < |ts| ==> ts[i].end <= ts[j].start }

  predicate WellTimed(ts: seq<Tenure>, clock: int) {
    InTurn(ts) && forall i :: 0 <= i < |ts| ==> ts[i].start <= ts[i].end && ts[i].start <= clock
  }

  /** The lease on file is the last tenure; without one the last tenure is over. */
  predicate OrderlyLane(s: Store, lane: string, clock: int) {
    var ts := TenuresOn(s, lane);
    && WellTimed(ts, clock)
    && (if lane in s.leases
        then ts != [] && ts[|ts| - 1] == Tenure(s.leases[lane].owner, s.leases[lane].acquiredAt, s.leases[lane].expiresAt)
        else ts != [] ==> ts[|ts| - 1].end <= clock)
  }

  ghost predicate Orderly(s: Store, clock: int) { forall lane :: OrderlyLane(s, lane, clock) }

  /** Operations happen at times that never go back. */
  predicate Monotone(ops: seq<Op>, clock: int) {
    ops == [] || (clock <= ops[0].now && Monotone(ops[1..], ops[0].now))
  }

  function AfterAll(s: Store, ops: seq<Op>): Store
    decreases |ops|
  {
    if ops == [] then s else AfterAll(Performed(s, ops[0]).store, ops[1..])
  }

  lemma AppendingKeepsTurns(ts: seq<Tenure>, t: Tenure, clock: int)
    requires WellTimed(ts, clock) && (ts != [] ==> ts[|ts| - 1].end <= t.start) && t.start <= t.end && clock <= t.start
    ensures WellTimed(ts + [t], t.start)
  {
    forall i, j | 0 <= i < j < |ts + [t]| ensures (ts + [t])[i].end <= (ts + [t])[j].start {
      if j == |ts| && i < |ts| - 1 {
        assert ts[i].end <= ts[|ts| - 1].start;
      }
    }
  }

  lemma EndingKeepsTurns(ts: seq<Tenure>, end: int, clock: int)
    requires WellTimed(ts, clock) && ts != [] && ts[|ts| - 1].start <= end
    ensures WellTimed(EndingAt(ts, end), clock)
    ensures EndingAt(ts, end) != [] && EndingAt(ts, end)[|ts| - 1] == ts[|ts| - 1].(end := end) && |EndingAt(ts, end)| == |ts|
  {
    var us := EndingAt(ts, end);
    forall i, j | 0 <= i < j < |us| ensures us[i].end <= us[j].start {
      assert us[i] == ts[i] && us[j].start == ts[j].start;
    }
  }

  lemma UntouchedStaysOrderly(s: Store, t: Store, lane: string, clock: int, now: int)
    requires OrderlyLane(s, lane, clock) && clock <= now
    requires TenuresOn(t, lane) == TenuresOn(s, lane) && (lane in t.leases <==> lane in s.leases)
    requires lane in s.leases ==> t.leases[lane] == s.leases[lane]
    ensures OrderlyLane(t, lane, now)
  {}

  lemma AcquiringStaysOrderly(s: Store, lane: string, owner: string, ttl: int, now: int, clock: int)
    requires OrderlyLane(s, lane, clock) && clock <= now
    ensures OrderlyLane(Acquired(s, lane, owner, ttl, now).store, lane, now)
  {
    var done := Acquired(s, lane, owner, ttl, now);
    if done.reply.Refused? {
      UntouchedStaysOrderly(s, s, lane, clock, now);
    } else {
      AppendingKeepsTurns(TenuresOn(s, lane), Tenure(owner, now, now + ttl), clock);
      hide WellTimed, ValidId;
    }
  }

  lemma RenewingStaysOrderly(s: Store, lane: string, owner: string, ttl: int, now: int, clock: int)
    requires OrderlyLane(s, lane, clock) && clock <= now
    ensures OrderlyLane(Renewed(s, lane, owner, ttl, now).store, lane, now)
  {
    var done := Renewed(s, lane, owner, ttl, now);
    if done.reply.Refused? {
      UntouchedStaysOrderly(s, s, lane, clock, now);
    } else {
      var ts := TenuresOn(s, lane);
      LaterClock(ts, clock, now);
      EndingKeepsTurns(ts, now + ttl, now);
      hide WellTimed, ValidId, EndingAt;
    }
  }

  lemma ReleasingStaysOrderly(s: Store, lane: string, owner: string, now: int, clock: int)
    requires OrderlyLane(s, lane, clock) && clock <= now
    ensures OrderlyLane(ReleasedLane(s, lane, owner, now).store, lane, now)
  {
    var done := ReleasedLane(s, lane, owner, now);
    if done.store == s {
      UntouchedStaysOrderly(s, s, lane, clock, now);
    } else {
      var ts := TenuresOn(s, lane);
      LaterClock(ts, clock, now);
      EndingKeepsTurns(ts, Least(s.leases[lane].expiresAt, now), now);
      hide WellTimed, ValidId, EndingAt;
    }
  }

  lemma LaterClock(ts: seq<Tenure>, clock: int, now: int)
    requires WellTimed(ts, clock) && clock <= now
    ensures WellTimed(ts, now)
    ensures ts != [] ==> ts[|ts| - 1].start <= ts[|ts| - 1].end && ts[|ts| - 1].start <= now
  {}

  predicate SameLane(s: Store, t: Store, lane: string) {
    && TenuresOn(t, lane) == TenuresOn(s, lane) && (lane in t.leases <==> lane in s.leases)
    && (lane in s.leases && lane in t.leases ==> t.leases[lane] == s.leases[lane])
  }

  lemma AcquiringElsewhere(s: Store, other: string, owner: string, ttl: int, now: int, lane: string)
    requires other != lane
    ensures SameLane(s, Acquired(s, other, owner, ttl, now).store, lane)
  {
    hide ValidId;
  }

  lemma RenewingElsewhere(s: Store, other: string, owner: string, ttl: int, now: int, lane: string)
    requires other != lane
    ensures SameLane(s, Renewed(s, other, owner, ttl, now).store, lane)
  {
    hide ValidId, EndingAt;
  }

  lemma ReleasingElsewhere(s: Store, other: string, owner: string, now: int, lane: string)
    requires other != lane
    ensures SameLane(s, ReleasedLane(s, other, owner, now).store, lane)
  {
    hide ValidId, EndingAt;
  }

  lemma OtherLanesUntouched(s: Store, op: Op, lane: string)
    requires op.lane != lane
    ensures SameLane(s, Performed(s, op).store, lane)
  {
    hide Acquired, Renewed, ReleasedLane, SameLane;
    match op
    case Acquire(other, owner, ttl, now) => AcquiringElsewhere(s, other, owner, ttl, now, lane);
    case Renew(other, owner, ttl, now) => RenewingElsewhere(s, other, owner, ttl, now, lane);
    case Release(other, owner, now) => ReleasingElsewhere(s, other, owner, now, lane);
    case _ => LockingChangesNoLease(s, op, lane);
  }

  lemma LockingChangesNoLease(s: Store, op: Op, lane: string)
    requires op.TakeLock? || op.DropLock?
    ensures SameLane(s, Performed(s, op).store, lane)
  {}

  lemma LaneStaysOrderly(s: Store, op: Op, lane: string, clock: int)
    requires OrderlyLane(s, lane, clock) && clock <= op.now
    ensures OrderlyLane(Performed(s, op).store, lane, op.now)
  {
    if op.lane != lane {
      OtherLanesUntouched(s, op, lane);
      hide OrderlyLane, Performed, TenuresOn;
      UntouchedStaysOrderly(s, Performed(s, op).store, lane, clock, op.now);
    } else {
      hide OrderlyLane, Acquired, Renewed, ReleasedLane;
      match op
      case Acquire(_, owner, ttl, now) => AcquiringStaysOrderly(s, lane, owner, ttl, now, clock);
      case Renew(_, owner, ttl, now) => RenewingStaysOrderly(s, lane, owner, ttl, now, clock);
      case Release(_, owner, now) => ReleasingStaysOrderly(s, lane, owner, now, clock);
      case _ =>
        LockingChangesNoLease(s, op, lane);
        UntouchedStaysOrderly(s, Performed(s, op).store, lane, clock, op.now);
    }
  }

  /** When the last operation happened. */
  function EndOf(ops: seq<Op>, clock: int): int { if ops == [] then clock else EndOf(ops[1..], ops[0].now) }

  lemma {:induction false} HistoryStaysOrderly(s: Store, ops: seq<Op>, clock: int) returns (end: int)
    requires Orderly(s, clock) && Monotone(ops, clock)
    ensures Orderly(AfterAll(s, ops), end) && end == EndOf(ops, clock)
    decreases |ops|
  {
    if ops == [] {
      end := clock;
    } else {
      forall lane ensures OrderlyLane(Performed(s, ops[0]).store, lane, ops[0].now) {
        LaneStaysOrderly(s, ops[0], lane, clock);
      }
      hide OrderlyLane;
      end := HistoryStaysOrderly(Performed(s, ops[0]).store, ops[1..], ops[0].now);
    }
  }

  /** Over any history with a clock that never goes back, no instant lies in two tenures of one lane. */
  lemma TenuresNeverOverlap(ops: seq<Op>, clock: int, lane: string, i: int, j: int, now: int)
    requires Monotone(ops, clock)
    ensures
      var ts := TenuresOn(AfterAll(Store(map[], {}, map[]), ops), lane);
      0 <= i < j < |ts| ==> !(Covers(ts[i], now) && Covers(ts[j], now))
  {
    var s := Store(map[], {}, map[]);
    assert Orderly(s, clock);
    var end := HistoryStaysOrderly(s, ops, clock);
    hide AfterAll;
    assert OrderlyLane(AfterAll(s, ops), lane, end);
  }

  lemma OverIsNotRenewed(s: Store, clock: int, lane: string, i: int, ttl: int, now: int)
    requires OrderlyLane(s, lane, clock) && 0 <= i < |TenuresOn(s, lane)| && TenuresOn(s, lane)[i].end <= now
    requires forall j, k :: 0 <= j < k < |TenuresOn(s, lane)| ==> TenuresOn(s, lane)[j].owner != TenuresOn(s, lane)[k].owner
    ensures Renewed(s, lane, TenuresOn(s, lane)[i].owner, ttl, now).reply.Refused?
    ensures Renewed(s, lane, TenuresOn(s, lane)[i].owner, ttl, now).store == s
  {
    var ts := TenuresOn(s, lane);
    if i < |ts| - 1 {
      assert ts[i].owner != ts[|ts| - 1].owner;
    }
  }

  /** After any history, a tenure that is over cannot be renewed by its holder, when every tenure has its own owner id. */
  lemma ExpiredIsNotRenewed(ops: seq<Op>, clock: int, lane: string, i: int, ttl: int, now: int)
    requires Monotone(ops, clock)
    ensures
      var s := AfterAll(Store(map[], {}, map[]), ops);
      var ts := TenuresOn(s, lane);
      0 <= i < |ts| && ts[i].end <= now && (forall j, k :: 0 <= j < k < |ts| ==> ts[j].owner != ts[k].owner) ==>
        Renewed(s, lane, ts[i].owner, ttl, now).reply.Refused? && Renewed(s, lane, ts[i].owner, ttl, now).store == s
  {
    var s := Store(map[], {}, map[]);
    assert Orderly(s, clock);
    var end := HistoryStaysOrderly(s, ops, clock);
    hide AfterAll, Renewed;
    var t := AfterAll(s, ops);
    assert OrderlyLane(t, lane, end);
    hide OrderlyLane;
    var ts := TenuresOn(t, lane);
    if 0 <= i < |ts| && ts[i].end <= now && forall j, k :: 0 <= j < k < |ts| ==> ts[j].owner != ts[k].owner {
      OverIsNotRenewed(t, end, lane, i, ttl, now);
    }
  }

  lemma {:induction false} EndsBefore(ops: seq<Op>, op: Op, clock: int)
    requires Monotone(ops + [op], clock)
    ensures Monotone(ops, clock) && EndOf(ops, clock) <= op.now
    decreases |ops|
  {
    if ops == [] {
      assert ([] + [op])[0] == op;
    } else {
      assert (ops + [op])[0] == ops[0] && (ops + [op])[1..] == ops[1..] + [op];
      EndsBefore(ops[1..], op, ops[0].now);
    }
  }

  predicate Held(ts: seq<Tenure>, now: int) { exists i :: 0 <= i < |ts| && Covers(ts[i], now) }

  /** Only the last tenure can cover an instant that is not past, and it does so while the lease on file is active. */
  lemma HeldIsActive(s: Store, lane: string, clock: int, now: int)
    requires OrderlyLane(s, lane, clock) && clock <= now
    ensures Held(TenuresOn(s, lane), now) <==> lane in s.leases && ActiveAt(s.leases[lane], now)
    ensures lane in s.leases ==> TenuresOn(s, lane) != [] && TenuresOn(s, lane)[|TenuresOn(s, lane)| - 1].owner == s.leases[lane].owner
  {
    var ts := TenuresOn(s, lane);
    forall i | 0 <= i < |ts| - 1 ensures !Covers(ts[i], now) {
      assert ts[i].end <= ts[|ts| - 1].start;
    }
    if lane in s.leases {
      assert Covers(ts[|ts| - 1], now) <==> ActiveAt(s.leases[lane], now);
    }
  }

  /**
   After any history, a lane is granted exactly if owner, lane and duration are valid, no operation on it is in progress,
   and nobody holds it then; and renewed exactly if the last to hold it is the owner, who still does.
   */
  lemma GrantedExactly(ops: seq<Op>, clock: int, lane: string, owner: string, ttl: int, now: int)
    requires Monotone(ops + [Acquire(lane, owner, ttl, now)], clock)
    ensures
      var s := AfterAll(Store(map[], {}, map[]), ops);
      var ts := TenuresOn(s, lane);
      && (Acquired(s, lane, owner, ttl, now).reply.Granted? <==>
            ValidId(owner) && ttl >= 1 && ValidId(lane) && lane !in s.locks && !Held(ts, now))
      && (Renewed(s, lane, owner, ttl, now).reply.Granted? <==>
            ttl >= 1 && ValidId(lane) && lane !in s.locks && ts != [] && ts[|ts| - 1].owner == owner && Covers(ts[|ts| - 1], now))
  {
    var s := Store(map[], {}, map[]);
    EndsBefore(ops, Acquire(lane, owner, ttl, now), clock);
    assert Orderly(s, clock);
    var end := HistoryStaysOrderly(s, ops, clock);
    var t := AfterAll(s, ops);
    assert OrderlyLane(t, lane, end);
    HeldIsActive(t, lane, end, now);
    hide AfterAll, Monotone, ValidId;
    RenewedByHolder(t, lane, end, owner, ttl, now);
  }

  lemma RenewedByHolder(s: Store, lane: string, clock: int, owner: string, ttl: int, now: int)
    requires OrderlyLane(s, lane, clock) && clock <= now
    ensures
      var ts := TenuresOn(s, lane);
      Renewed(s, lane, owner, ttl, now).reply.Granted? <==>
        ttl >= 1 && ValidId(lane) && lane !in s.locks && ts != [] && ts[|ts| - 1].owner == owner && Covers(ts[|ts| - 1], now)
  {
    hide ValidId, EndingAt;
  }
}

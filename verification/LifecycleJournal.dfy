/**
 The hash-chained transition journal and the files materialized from it. A budget counts the writes
 that reach the disk before the process dies; every file write is atomic.
 */
module LifecycleJournal {
  import opened Outcomes
  import opened LifecycleEvidence
  import opened LifecycleReducer

  /** A transition without its own hash; hashes of transitions and snapshots are their contents. */
  datatype Body = Body(sequence: int, previous: Option<Body>, from: Option<Snapshot>, to: Snapshot,
                       snapshot: Snapshot, recordedAt: string)

  datatype Transition = Transition(body: Body, sha: Body)

  datatype Watermark = Watermark(evidence: map<Kind, Head>, snapshot: Snapshot, transition: Body, sequence: int)

  /** Journal directories in file-name order, and the four materialized files, by attempt. */
  datatype Disk = Disk(journals: map<Identity, seq<Transition>>, attempts: map<Identity, Snapshot>,
                       workItems: map<Identity, Snapshot>, generations: map<Identity, Snapshot>,
                       watermarks: map<Identity, Watermark>)

  const EMPTY_DISK := Disk(map[], map[], map[], map[], map[])

  /** What a step leaves behind: the disk, and the budget left unless the process died. */
  datatype After = After(disk: Disk, left: Option<nat>)

  function JournalOf(d: Disk, id: Identity): seq<Transition> {
    if id in d.journals then d.journals[id] else []
  }

  // ---- reading the journal ----

  predicate ValidTransition(t: Transition, previous: Option<Body>) {
    t.body.previous == previous && t.body.to == t.body.snapshot && t.sha == t.body
  }

  predicate ValidChain(journal: seq<Transition>, previous: Option<Body>) {
    journal == [] || (ValidTransition(journal[0], previous) && ValidChain(journal[1..], Some(journal[0].sha)))
  }

  datatype JournalFault = BrokenChain

  /** The last record of a journal, or an error when any record fails its checks. */
  method LatestTransition(journal: seq<Transition>) returns (r: Result<Option<Transition>, JournalFault>)
    ensures r == Latest(journal)
  {
    var previous: Option<Body> := None;
    var last: Option<Transition> := None;
    var i := 0;
    while i < |journal|
      invariant 0 <= i <= |journal|
      invariant ValidChain(journal, None) == ValidChain(journal[i..], previous)
      invariant last == if i == 0 then None else Some(journal[i - 1])
    {
      assert journal[i..][0] == journal[i] && journal[i..][1..] == journal[i + 1..];
      if !ValidTransition(journal[i], previous) {
        return Err(BrokenChain);
      }
      last := Some(journal[i]);
      previous := Some(journal[i].sha);
      i := i + 1;
    }
    return Ok(last);
  }

  function Latest(journal: seq<Transition>): Result<Option<Transition>, JournalFault> {
    if !ValidChain(journal, None) then Err(BrokenChain)
    else Ok(if journal == [] then None else Some(journal[|journal| - 1]))
  }

  // ---- writing ----

  function WatermarkOf(t: Transition): Watermark {
    Watermark(t.body.snapshot.evidence, t.body.snapshot, t.sha, t.body.sequence)
  }

  /** Attempt file, work-item file, generation file, watermark: in this order. */
  function Materialize(d: Disk, id: Identity, t: Transition, budget: nat): After {
    var snapshot := t.body.snapshot;
    var d1 := d.(attempts := d.attempts[id := snapshot]);
    var d2 := d1.(workItems := d.workItems[id := snapshot]);
    var d3 := d2.(generations := d.generations[id := snapshot]);
    var d4 := d3.(watermarks := d.watermarks[id := WatermarkOf(t)]);
    match budget
    case 0 => After(d, None)
    case 1 => After(d1, None)
    case 2 => After(d2, None)
    case 3 => After(d3, None)
    case _ => After(d4, Some(budget - 4))
  }

  function NextTransition(d: Disk, snapshot: Snapshot, latest: Option<Transition>, now: string): Transition {
    var from := if snapshot.identity in d.attempts then Some(d.attempts[snapshot.identity]) else None;
    var body := match latest
      case None => Body(1, None, from, snapshot, snapshot, now)
      case Some(t) => Body(t.body.sequence + 1, Some(t.sha), from, snapshot, snapshot, now);
    Transition(body, body)
  }

  /** Recording a snapshot: a new transition first, unless nothing changed, then the four files. */
  function Publish(d: Disk, snapshot: Snapshot, now: string, budget: nat): Result<After, JournalFault> {
    var id := snapshot.identity;
    match Latest(JournalOf(d, id))
    case Err(e) => Err(e)
    case Ok(latest) =>
      if latest.Some? && latest.value.body.to == snapshot then Ok(Materialize(d, id, latest.value, budget))
      else if budget == 0 then Ok(After(d, None))
      else
        var t := NextTransition(d, snapshot, latest, now);
        Ok(Materialize(d.(journals := d.journals[id := JournalOf(d, id) + [t]]), id, t, budget - 1))
  }

  /** Restoring one attempt's files from its last transition. */
  function RecoverOne(d: Disk, id: Identity, budget: nat): Result<After, JournalFault> {
    match Latest(JournalOf(d, id))
    case Err(e) => Err(e)
    case Ok(None) => Ok(After(d, Some(budget)))
    case Ok(Some(t)) => Ok(Materialize(d, id, t, budget))
  }

  function RecoverEach(d: Disk, order: seq<Identity>, budget: nat): Result<After, JournalFault>
    decreases |order|
  {
    if order == [] then Ok(After(d, Some(budget)))
    else
      match RecoverOne(d, order[0], budget)
      case Err(e) => Err(e)
      case Ok(After(next, None)) => Ok(After(next, None))
      case Ok(After(next, Some(left))) => RecoverEach(next, order[1..], left)
  }

  /** The recorder's directory tree under `state/attempt-lifecycle`. */
  class RecorderFiles {
    var journals: map<Identity, seq<Transition>>
    var attempts: map<Identity, Snapshot>
    var workItems: map<Identity, Snapshot>
    var generations: map<Identity, Snapshot>
    var watermarks: map<Identity, Watermark>

    function Contents(): Disk
      reads this
    {
      Disk(journals, attempts, workItems, generations, watermarks)
    }

    constructor ()
      ensures Contents() == EMPTY_DISK
    {
      journals, attempts, workItems, generations, watermarks := map[], map[], map[], map[], map[];
    }

    method MaterializeSnapshot(id: Identity, t: Transition, budget: nat) returns (left: Option<nat>)
      modifies this`attempts, this`workItems, this`generations, this`watermarks
      ensures After(Contents(), left) == Materialize(old(Contents()), id, t, budget)
    {
      var snapshot := t.body.snapshot;
      if budget == 0 {
        return None;
      }
      attempts := attempts[id := snapshot];
      if budget == 1 {
        return None;
      }
      workItems := workItems[id := snapshot];
      if budget == 2 {
        return None;
      }
      generations := generations[id := snapshot];
      if budget == 3 {
        return None;
      }
      watermarks := watermarks[id := WatermarkOf(t)];
      return Some(budget - 4);
    }

    method PublishSnapshot(snapshot: Snapshot, now: string, budget: nat) returns (r: Result<Option<nat>, JournalFault>)
      modifies this
      ensures
        match Publish(old(Contents()), snapshot, now, budget)
        case Err(e) => r == Err(e) && Contents() == old(Contents())
        case Ok(after) => r == Ok(after.left) && Contents() == after.disk
    {
      var id := snapshot.identity;
      var journal := if id in journals then journals[id] else [];
      var latest := LatestTransition(journal);
      if latest.Err? {
        return Err(latest.error);
      }
      var left: Option<nat>;
      if latest.value.Some? && latest.value.value.body.to == snapshot {
        left := MaterializeSnapshot(id, latest.value.value, budget);
        return Ok(left);
      }
      if budget == 0 {
        return Ok(None);
      }
      var t := NextTransition(Contents(), snapshot, latest.value, now);
      journals := journals[id := journal + [t]];
      left := MaterializeSnapshot(id, t, budget - 1);
      return Ok(left);
    }

    method RecoverMaterializedState(order: seq<Identity>, budget: nat) returns (r: Result<Option<nat>, JournalFault>)
      modifies this
      ensures
        match RecoverEach(old(Contents()), order, budget)
        case Err(e) => r == Err(e)
        case Ok(after) => r == Ok(after.left) && Contents() == after.disk
    {
      var left := budget;
      var i := 0;
      while i < |order|
        invariant 0 <= i <= |order|
        invariant RecoverEach(old(Contents()), order, budget) == RecoverEach(Contents(), order[i..], left)
      {
        assert order[i..][0] == order[i] && order[i..][1..] == order[i + 1..];
        var journal := if order[i] in journals then journals[order[i]] else [];
        var latest := LatestTransition(journal);
        if latest.Err? {
          return Err(latest.error);
        }
        if latest.value.Some? {
          var remaining := MaterializeSnapshot(order[i], latest.value.value, left);
          if remaining.None? {
            return Ok(None);
          }
          left := remaining.value;
        }
        i := i + 1;
      }
      return Ok(Some(left));
    }
  }

  // ---- what the journal keeps ----

  function ShaAt(journal: seq<Transition>, i: int): Option<Body>
    requires -1 <= i < |journal|
  {
    if i == -1 then None else Some(journal[i].sha)
  }

  function SnapshotAt(journal: seq<Transition>, i: int): Option<Snapshot>
    requires -1 <= i < |journal|
  {
    if i == -1 then None else Some(journal[i].body.to)
  }

  /** Numbered 1, 2, 3, ..., chained by hash, each starting from the snapshot before it and changing it. */
  ghost predicate GoodRecord(journal: seq<Transition>, id: Identity, i: int)
    requires 0 <= i < |journal|
  {
    var t := journal[i];
    && ValidTransition(t, ShaAt(journal, i - 1))
    && t.body.sequence == i + 1
    && t.body.snapshot.identity == id
    && t.body.from == SnapshotAt(journal, i - 1)
    && (i > 0 ==> journal[i - 1].body.to != t.body.to)
  }

  ghost predicate GoodJournal(journal: seq<Transition>, id: Identity) {
    forall i :: 0 <= i < |journal| ==> GoodRecord(journal, id, i)
  }

  ghost predicate GoodJournals(d: Disk) {
    forall id :: id in d.journals ==> d.journals[id] != [] && GoodJournal(d.journals[id], id)
  }

  /** The four files of every journalled attempt equal its last transition, and no other attempt has files. */
  ghost predicate Settled(d: Disk) {
    && d.attempts.Keys == d.workItems.Keys == d.generations.Keys == d.watermarks.Keys == d.journals.Keys
    && forall id :: id in d.journals ==> d.journals[id] != [] && SettledAt(d, id)
  }

  ghost predicate SettledAt(d: Disk, id: Identity)
    requires id in d.journals && d.journals[id] != []
  {
    var t := d.journals[id][|d.journals[id]| - 1];
    && id in d.attempts && d.attempts[id] == t.body.snapshot
    && id in d.workItems && d.workItems[id] == t.body.snapshot
    && id in d.generations && d.generations[id] == t.body.snapshot
    && id in d.watermarks && d.watermarks[id] == WatermarkOf(t)
  }

  /** Files may lag behind, but only for journalled attempts. */
  ghost predicate NoStrayFiles(d: Disk) {
    d.attempts.Keys <= d.journals.Keys && d.workItems.Keys <= d.journals.Keys
    && d.generations.Keys <= d.journals.Keys && d.watermarks.Keys <= d.journals.Keys
  }

  function LastOf(d: Disk, id: Identity): Transition
    requires id in d.journals && d.journals[id] != []
  {
    d.journals[id][|d.journals[id]| - 1]
  }

  ghost predicate NoEmptyJournal(journals: map<Identity, seq<Transition>>) {
    forall id :: id in journals ==> journals[id] != []
  }

  /** The disk a complete recovery must produce: a function of the journals alone. */
  ghost function Recovered(journals: map<Identity, seq<Transition>>): Disk
    requires NoEmptyJournal(journals)
  {
    Disk(journals,
         map id | id in journals :: journals[id][|journals[id]| - 1].body.snapshot,
         map id | id in journals :: journals[id][|journals[id]| - 1].body.snapshot,
         map id | id in journals :: journals[id][|journals[id]| - 1].body.snapshot,
         map id | id in journals :: WatermarkOf(journals[id][|journals[id]| - 1]))
  }

  lemma {:induction false} GoodIsValid(journal: seq<Transition>, id: Identity, i: int)
    requires GoodJournal(journal, id) && 0 <= i <= |journal|
    ensures ValidChain(journal[i..], ShaAt(journal, i - 1))
    decreases |journal| - i
  {
    if i < |journal| {
      assert GoodRecord(journal, id, i);
      assert journal[i..][0] == journal[i] && journal[i..][1..] == journal[i + 1..];
      GoodIsValid(journal, id, i + 1);
    }
  }

  lemma GoodLatest(d: Disk, id: Identity)
    requires GoodJournals(d)
    ensures Latest(JournalOf(d, id)) == Ok(if id in d.journals then Some(LastOf(d, id)) else None)
  {
    if id in d.journals {
      GoodIsValid(d.journals[id], id, 0);
      assert d.journals[id][0..] == d.journals[id];
    }
  }

  /** Two valid journals ending in the same hash are the same journal: the last hash pins all history. */
  lemma {:induction false} LastHashPinsHistory(a: seq<Transition>, b: seq<Transition>, id: Identity)
    requires GoodJournal(a, id) && GoodJournal(b, id) && a != [] && b != []
    requires a[|a| - 1].sha == b[|b| - 1].sha
    ensures a == b
    decreases |a|
  {
    var m, n := |a| - 1, |b| - 1;
    assert GoodRecord(a, id, m) && GoodRecord(b, id, n);
    assert a[m] == b[n];
    if m > 0 {
      GoodPrefix(a, id, m);
      GoodPrefix(b, id, n);
      LastHashPinsHistory(a[..m], b[..n], id);
    }
    assert a == a[..m] + [a[m]] && b == b[..n] + [b[n]];
  }

  lemma GoodPrefix(journal: seq<Transition>, id: Identity, n: nat)
    requires GoodJournal(journal, id) && n <= |journal|
    ensures GoodJournal(journal[..n], id)
  {
    forall i | 0 <= i < n ensures GoodRecord(journal[..n], id, i) {
      assert GoodRecord(journal, id, i);
    }
  }

  /** The record holds its own hash, and names the hash of the record before it. */
  predicate Linked(journal: seq<Transition>, previous: Option<Body>, i: int)
    requires 0 <= i < |journal|
  {
    && journal[i].sha == journal[i].body && journal[i].body.to == journal[i].body.snapshot
    && journal[i].body.previous == if i == 0 then previous else Some(journal[i - 1].sha)
  }

  /** A journal is read exactly if every record is linked. */
  lemma {:induction false} ChainExactly(journal: seq<Transition>, previous: Option<Body>)
    ensures ValidChain(journal, previous) <==> forall i :: 0 <= i < |journal| ==> Linked(journal, previous, i)
    decreases |journal|
  {
    if journal != [] {
      var rest, next := journal[1..], Some(journal[0].sha);
      ChainExactly(rest, next);
      forall i | 0 <= i < |rest| ensures Linked(rest, next, i) <==> Linked(journal, previous, i + 1) {
        assert rest[i] == journal[i + 1];
      }
      assert Linked(journal, previous, 0) <==> ValidTransition(journal[0], previous);
      hide Linked, ValidTransition;
      if ValidChain(journal, previous) {
        forall i | 0 <= i < |journal| ensures Linked(journal, previous, i) {
          assert i > 0 ==> Linked(rest, next, i - 1);
        }
      }
    }
  }

  /** Whatever was done to the files: journals that are still read and end in the same record are the same journal. */
  lemma {:induction false} ReadingPinsHistory(a: seq<Transition>, b: seq<Transition>)
    requires Latest(a).Ok? && Latest(b).Ok? && a != [] && b != [] && a[|a| - 1] == b[|b| - 1]
    ensures a == b
    decreases |a|
  {
    ChainExactly(a, None);
    ChainExactly(b, None);
    var m, n := |a| - 1, |b| - 1;
    assert Linked(a, None, m) && Linked(b, None, n);
    if m > 0 && n > 0 {
      assert Linked(a, None, m - 1) && Linked(b, None, n - 1);
      FrontIsRead(a);
      FrontIsRead(b);
      ReadingPinsHistory(a[..m], b[..n]);
      assert a == a[..m] + [a[m]] && b == b[..n] + [b[n]];
    }
  }

  lemma FrontIsRead(journal: seq<Transition>)
    requires Latest(journal).Ok? && |journal| > 1
    ensures Latest(journal[..|journal| - 1]).Ok?
  {
    var front := journal[..|journal| - 1];
    ChainExactly(journal, None);
    ChainExactly(front, None);
    forall i | 0 <= i < |front| ensures Linked(front, None, i) {
      assert Linked(journal, None, i);
    }
  }
}

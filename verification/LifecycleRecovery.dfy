/** Crashes at any write of the recorder are invisible after recovery: runs refine crash-free runs. */
module LifecycleRecovery {
  import opened Outcomes
  import opened LifecycleEvidence
  import opened LifecycleReducer
  import opened LifecycleJournal

  /** One reduced snapshot to record, and the time it is recorded at. */
  datatype Work = Work(snapshot: Snapshot, now: string)

  function PublishEach(d: Disk, work: seq<Work>, budget: nat): After
    decreases |work|
  {
    if work == [] then After(d, Some(budget))
    else
      match Publish(d, work[0].snapshot, work[0].now, budget)
      case Err(_) => PublishEach(d, work[1..], budget)
      case Ok(After(next, None)) => After(next, None)
      case Ok(After(next, Some(left))) => PublishEach(next, work[1..], left)
  }

  /** One reducing session: recover every journalled attempt, then record each snapshot. */
  datatype Session = Session(order: seq<Identity>, work: seq<Work>, budget: nat)

  function RunSession(d: Disk, session: Session): Result<After, JournalFault> {
    match RecoverEach(d, session.order, session.budget)
    case Err(e) => Err(e)
    case Ok(After(next, None)) => Ok(After(next, None))
    case Ok(After(next, Some(left))) => Ok(PublishEach(next, session.work, left))
  }

  function RunSessions(d: Disk, sessions: seq<Session>): Result<Disk, JournalFault>
    decreases |sessions|
  {
    if sessions == [] then Ok(d)
    else
      match RunSession(d, sessions[0])
      case Err(e) => Err(e)
      case Ok(after) => RunSessions(after.disk, sessions[1..])
  }

  /** Recording without any crash. */
  function Committed(d: Disk, work: seq<Work>): Disk
    decreases |work|
  {
    if work == [] then d
    else
      match Publish(d, work[0].snapshot, work[0].now, 5)
      case Err(_) => Committed(d, work[1..])
      case Ok(after) => Committed(after.disk, work[1..])
  }

  ghost predicate Sane(d: Disk) { GoodJournals(d) && NoStrayFiles(d) }

  /** What recovering this disk must produce. */
  ghost function Restored(d: Disk): Disk
    requires Sane(d)
  {
    Recovered(d.journals)
  }

  lemma SettledIsRecovered(d: Disk)
    requires Sane(d)
    ensures Settled(d) <==> Restored(d) == d
  {
    hide Settled, Restored, Sane;
    if Settled(d) {
      SettledRestores(d);
    }
    if Restored(d) == d {
      RestoredIsSettled(d);
    }
  }

  lemma SettledRestores(d: Disk)
    requires Sane(d) && Settled(d)
    ensures Restored(d) == d
  {
    hide GoodJournal, WatermarkOf;
    assert forall id :: id in d.journals ==> SettledAt(d, id);
    var r := Restored(d);
    assert r.attempts == d.attempts && r.workItems == d.workItems;
    assert r.generations == d.generations && r.watermarks == d.watermarks;
  }

  lemma RestoredIsSettled(d: Disk)
    requires Sane(d) && Restored(d) == d
    ensures Settled(d)
  {
    hide GoodJournal, WatermarkOf;
    forall id | id in d.journals ensures SettledAt(d, id) {
      assert Restored(d).attempts[id] == LastOf(d, id).body.snapshot;
      assert Restored(d).watermarks[id] == WatermarkOf(LastOf(d, id));
    }
  }

  /** Each file map is untouched or has this attempt's file written; all four are written on survival. */
  lemma MaterializeWrites(d: Disk, id: Identity, t: Transition, budget: nat)
    ensures
      var after := Materialize(d, id, t, budget);
      && after.disk.journals == d.journals
      && after.disk.attempts in {d.attempts, d.attempts[id := t.body.snapshot]}
      && after.disk.workItems in {d.workItems, d.workItems[id := t.body.snapshot]}
      && after.disk.generations in {d.generations, d.generations[id := t.body.snapshot]}
      && after.disk.watermarks in {d.watermarks, d.watermarks[id := WatermarkOf(t)]}
      && (budget >= 4 <==> after.left.Some?)
      && (after.left.Some? ==>
            && after.disk.attempts == d.attempts[id := t.body.snapshot]
            && after.disk.workItems == d.workItems[id := t.body.snapshot]
            && after.disk.generations == d.generations[id := t.body.snapshot]
            && after.disk.watermarks == d.watermarks[id := WatermarkOf(t)])
  {}

  /** Writing some or all of an attempt's files never changes what recovery produces. */
  lemma MaterializeInvisible(d: Disk, id: Identity, budget: nat)
    requires Sane(d) && id in d.journals
    ensures
      var after := Materialize(d, id, LastOf(d, id), budget);
      && after.disk.journals == d.journals && Sane(after.disk) && Restored(after.disk) == Restored(d)
      && (after.left.Some? ==> SettledAt(after.disk, id))
      && (forall other :: other != id && other in d.journals && SettledAt(d, other) ==> SettledAt(after.disk, other))
  {
    MaterializeTouchesOne(d, id, LastOf(d, id), budget);
    MaterializeSettles(d, id, budget);
    hide Materialize, SettledAt, Sane, Restored;
    var after := Materialize(d, id, LastOf(d, id), budget);
    TouchingStaysSane(d, after.disk, id);
    assert GoodJournals(d) by { GoodJournalsOf(d); }
    hide TouchesOne, GoodJournals;
    forall other | other != id && other in d.journals && SettledAt(d, other) ensures SettledAt(after.disk, other) {
      SettledElsewhere(d, after.disk, id, other);
    }
  }

  /** Only this attempt's files may differ, and no journal does. */
  predicate TouchesOne(d: Disk, t: Disk, id: Identity) {
    && t.journals == d.journals
    && t.attempts - {id} == d.attempts - {id} && t.workItems - {id} == d.workItems - {id}
    && t.generations - {id} == d.generations - {id} && t.watermarks - {id} == d.watermarks - {id}
  }

  lemma MaterializeTouchesOne(d: Disk, id: Identity, t: Transition, budget: nat)
    ensures TouchesOne(d, Materialize(d, id, t, budget).disk, id)
  {
    UpdateTouchesOne(d.attempts, id, t.body.snapshot);
    UpdateTouchesOne(d.workItems, id, t.body.snapshot);
    UpdateTouchesOne(d.generations, id, t.body.snapshot);
    UpdateTouchesOne(d.watermarks, id, WatermarkOf(t));
    hide WatermarkOf;
  }

  lemma UpdateTouchesOne<T>(files: map<Identity, T>, id: Identity, file: T)
    ensures files[id := file] - {id} == files - {id}
  {}

  lemma RewritingIsNothing<T>(files: map<Identity, T>, id: Identity, file: T)
    requires id in files && files[id] == file
    ensures files[id := file] == files
  {}

  lemma MaterializeSettles(d: Disk, id: Identity, budget: nat)
    requires id in d.journals && d.journals[id] != []
    ensures
      var after := Materialize(d, id, LastOf(d, id), budget);
      after.left.Some? ==> after.disk.journals == d.journals && SettledAt(after.disk, id)
  {
    hide WatermarkOf;
  }

  lemma TouchingStaysSane(d: Disk, t: Disk, id: Identity)
    requires Sane(d) && id in d.journals && TouchesOne(d, t, id)
    ensures Sane(t) && Restored(t) == Restored(d)
  {
    hide GoodJournal, Recovered;
    assert NoStrayFiles(t) by {
      forall other | other in t.attempts || other in t.workItems || other in t.generations || other in t.watermarks ensures other in d.journals {
        if other != id {
          KeptElsewhere(d, t, id, other);
        }
      }
    }
  }

  lemma KeptElsewhere(d: Disk, t: Disk, id: Identity, other: Identity)
    requires TouchesOne(d, t, id) && other != id
    ensures (other in t.attempts <==> other in d.attempts) && (other in d.attempts ==> t.attempts[other] == d.attempts[other])
    ensures (other in t.workItems <==> other in d.workItems) && (other in d.workItems ==> t.workItems[other] == d.workItems[other])
    ensures (other in t.generations <==> other in d.generations) && (other in d.generations ==> t.generations[other] == d.generations[other])
    ensures (other in t.watermarks <==> other in d.watermarks) && (other in d.watermarks ==> t.watermarks[other] == d.watermarks[other])
  {
    SameElsewhere(d.attempts, t.attempts, id, other);
    SameElsewhere(d.workItems, t.workItems, id, other);
    SameElsewhere(d.generations, t.generations, id, other);
    SameElsewhere(d.watermarks, t.watermarks, id, other);
  }

  lemma SameElsewhere<T>(a: map<Identity, T>, b: map<Identity, T>, id: Identity, other: Identity)
    requires a - {id} == b - {id} && other != id
    ensures (other in a <==> other in b) && (other in a ==> a[other] == b[other])
  {
    assert other in a <==> other in a - {id};
    assert other in b <==> other in b - {id};
    if other in a {
      assert (a - {id})[other] == a[other] && (b - {id})[other] == b[other];
    }
  }

  lemma SettledElsewhere(d: Disk, t: Disk, id: Identity, other: Identity)
    requires TouchesOne(d, t, id) && other != id && other in d.journals && d.journals[other] != [] && SettledAt(d, other)
    ensures SettledAt(t, other)
  {
    KeptElsewhere(d, t, id, other);
    assert t.journals == d.journals;
    hide TouchesOne;
    StaysSettled(d, t, other);
  }

  /** Where nothing of an attempt is touched, it stays as settled as it was. */
  lemma StaysSettled(d: Disk, t: Disk, id: Identity)
    requires id in d.journals && d.journals[id] != [] && id in t.journals && t.journals[id] == d.journals[id] && SettledAt(d, id)
    requires id in d.attempts ==> id in t.attempts && t.attempts[id] == d.attempts[id]
    requires id in d.workItems ==> id in t.workItems && t.workItems[id] == d.workItems[id]
    requires id in d.generations ==> id in t.generations && t.generations[id] == d.generations[id]
    requires id in d.watermarks ==> id in t.watermarks && t.watermarks[id] == d.watermarks[id]
    ensures SettledAt(t, id)
  {
    hide WatermarkOf;
  }

  /** Recording a snapshot is atomic: it is committed by its journal write, whatever happens to the files. */
  lemma PublishIsAtomic(d: Disk, snapshot: Snapshot, now: string, budget: nat)
    requires Sane(d) && Settled(d)
    ensures
      var r := Publish(d, snapshot, now, budget);
      var full := Publish(d, snapshot, now, 5);
      && r.Ok? && Sane(r.value.disk)
      && full.Ok? && Sane(full.value.disk) && Settled(full.value.disk)
      && (r.value.left.Some? ==> budget > 0 && r.value.disk == full.value.disk)
      && Restored(r.value.disk) == if budget == 0 then d else full.value.disk
  {
    GoodLatest(d, snapshot.identity);
    SettledIsRecovered(d);
    PublishCommits(d, snapshot, now, 5);
    PublishCommits(d, snapshot, now, budget);
  }

  /** The last record is of this very snapshot. */
  predicate Unchanged(d: Disk, snapshot: Snapshot) {
    var id := snapshot.identity;
    id in d.journals && d.journals[id] != [] && LastOf(d, id).body.to == snapshot
  }

  function Journalled(d: Disk, snapshot: Snapshot, now: string): Disk
    requires snapshot.identity in d.journals ==> d.journals[snapshot.identity] != []
  {
    var id := snapshot.identity;
    var latest := if id in d.journals then Some(LastOf(d, id)) else None;
    if latest.Some? && latest.value.body.to == snapshot then d
    else d.(journals := d.journals[id := JournalOf(d, id) + [NextTransition(d, snapshot, latest, now)]])
  }

  /** A record that continues the last one keeps a journal good. */
  lemma AppendIsGood(journal: seq<Transition>, id: Identity, t: Transition)
    requires GoodJournal(journal, id) && t.body.snapshot.identity == id
    requires ValidTransition(t, ShaAt(journal, |journal| - 1)) && t.body.from == SnapshotAt(journal, |journal| - 1)
    requires t.body.sequence == |journal| + 1
    requires journal != [] ==> journal[|journal| - 1].body.to != t.body.to
    ensures GoodJournal(journal + [t], id)
  {
    var n := |journal|;
    forall i | 0 <= i <= n ensures GoodRecord(journal + [t], id, i) {
      if i < n {
        assert GoodRecord(journal, id, i);
      }
    }
  }

  lemma SaneWith(d: Disk, id: Identity, journal: seq<Transition>)
    requires Sane(d) && journal != [] && GoodJournal(journal, id)
    ensures Sane(d.(journals := d.journals[id := journal]))
  {
    hide GoodJournal;
  }

  lemma NextIsGood(d: Disk, snapshot: Snapshot, now: string)
    requires Sane(d) && Settled(d)
    requires
      var id := snapshot.identity;
      id in d.journals ==> d.journals[id] != [] && LastOf(d, id).body.to != snapshot
    ensures
      var id := snapshot.identity;
      var latest := if id in d.journals then Some(LastOf(d, id)) else None;
      GoodJournal(JournalOf(d, id) + [NextTransition(d, snapshot, latest, now)], id)
  {
    var id := snapshot.identity;
    var journal := JournalOf(d, id);
    var latest := if id in d.journals then Some(LastOf(d, id)) else None;
    if id in d.journals {
      assert SettledAt(d, id);
      assert GoodRecord(journal, id, |journal| - 1);
    }
    hide GoodRecord;
    AppendIsGood(journal, id, NextTransition(d, snapshot, latest, now));
  }

  lemma JournalledIsSane(d: Disk, snapshot: Snapshot, now: string)
    requires Sane(d) && Settled(d)
    ensures Sane(Journalled(d, snapshot, now)) && snapshot.identity in Journalled(d, snapshot, now).journals
    ensures forall other :: other != snapshot.identity && other in d.journals ==>
              SettledAt(Journalled(d, snapshot, now), other)
  {
    hide Sane, GoodJournal, NextTransition;
    var id := snapshot.identity;
    var t := Journalled(d, snapshot, now);
    if t != d {
      NextIsGood(d, snapshot, now);
      SaneWith(d, id, t.journals[id]);
    }
    JournalledElsewhere(d, snapshot, now);
  }

  lemma JournalledElsewhere(d: Disk, snapshot: Snapshot, now: string)
    requires Settled(d)
    ensures forall other :: other != snapshot.identity && other in d.journals ==>
              other in Journalled(d, snapshot, now).journals && Journalled(d, snapshot, now).journals[other] != []
              && SettledAt(Journalled(d, snapshot, now), other)
  {
    JournalledTouchesOne(d, snapshot, now);
    hide Journalled;
    var t := Journalled(d, snapshot, now);
    forall other | other != snapshot.identity && other in d.journals
      ensures other in t.journals && t.journals[other] != [] && SettledAt(t, other)
    {
      assert SettledAt(d, other);
      hide Settled, SettledAt;
      StaysSettled(d, t, other);
    }
  }

  lemma JournalledTouchesOne(d: Disk, snapshot: Snapshot, now: string)
    requires snapshot.identity in d.journals ==> d.journals[snapshot.identity] != []
    ensures
      var t := Journalled(d, snapshot, now);
      && t == d.(journals := t.journals)
      && forall other :: other != snapshot.identity && other in d.journals ==> other in t.journals && t.journals[other] == d.journals[other]
  {
    hide Latest, NextTransition;
  }

  lemma PublishCommits(d: Disk, snapshot: Snapshot, now: string, budget: nat)
    requires Sane(d) && Settled(d)
    ensures
      var r := Publish(d, snapshot, now, budget);
      var t := Journalled(d, snapshot, now);
      && Sane(t) && r.Ok? && Sane(r.value.disk)
      && Restored(r.value.disk) == (if budget == 0 then Restored(d) else Restored(t))
      && (r.value.left.Some? ==> Settled(r.value.disk) && r.value.disk == Restored(t))
      && (budget >= 5 ==> r.value.left.Some?) && (budget == 0 ==> r.value.left.None?)
  {
    hide *;
    var id := snapshot.identity;
    GoodJournalsOf(d);
    PublishIsMaterialize(d, snapshot, now, budget);
    JournalledIsSane(d, snapshot, now);
    JournalledSettlesOthers(d, snapshot, now);
    if Unchanged(d, snapshot) {
      UnchangedIsSame(d, snapshot, now);
      FilesFollow(d, id, budget);
    } else if budget > 0 {
      FilesFollow(Journalled(d, snapshot, now), id, budget - 1);
    }
  }

  lemma UnchangedIsSame(d: Disk, snapshot: Snapshot, now: string)
    requires Unchanged(d, snapshot)
    ensures Journalled(d, snapshot, now) == d
  {
    hide NextTransition;
  }

  ghost predicate OthersSettled(d: Disk, id: Identity) {
    forall other :: other in d.journals && other != id ==> d.journals[other] != [] && SettledAt(d, other)
  }

  lemma JournalledSettlesOthers(d: Disk, snapshot: Snapshot, now: string)
    requires Settled(d)
    ensures OthersSettled(Journalled(d, snapshot, now), snapshot.identity)
  {
    JournalledElsewhere(d, snapshot, now);
    assert Journalled(d, snapshot, now).journals.Keys <= d.journals.Keys + {snapshot.identity};
    hide Journalled, SettledAt, Settled;
  }

  lemma PublishIsMaterialize(d: Disk, snapshot: Snapshot, now: string, budget: nat)
    requires GoodJournals(d)
    ensures
      var id := snapshot.identity;
      var t := Journalled(d, snapshot, now);
      && id in t.journals && t.journals[id] != []
      && Publish(d, snapshot, now, budget) ==
         if Unchanged(d, snapshot) then Ok(Materialize(d, id, LastOf(d, id), budget))
         else if budget == 0 then Ok(After(d, None))
         else Ok(Materialize(t, id, LastOf(t, id), budget - 1))
  {
    GoodLatest(d, snapshot.identity);
    hide GoodJournals, Materialize, NextTransition, Latest;
  }

  /** Writing an attempt's files, when all others are settled, changes nothing recovery sees, and settles the disk if it is finished. */
  lemma FilesFollow(t: Disk, id: Identity, budget: nat)
    requires Sane(t) && id in t.journals && OthersSettled(t, id)
    ensures t.journals[id] != []
    ensures
      var after := Materialize(t, id, LastOf(t, id), budget);
      && Sane(after.disk) && Restored(after.disk) == Restored(t)
      && (after.left.Some? <==> budget >= 4)
      && (after.left.Some? ==> Settled(after.disk) && after.disk == Restored(t))
  {
    GoodJournalsOf(t);
    assert t.journals[id] != [] by { GoodLastRecord(t, id); }
    var after := Materialize(t, id, LastOf(t, id), budget);
    assert after.left.Some? <==> budget >= 4;
    hide *;
    MaterializeInvisible(t, id, budget);
    if after.left.Some? {
      NowAllSettled(t, after.disk, id);
      AllSettled(after.disk, t);
    }
  }

  lemma NowAllSettled(t: Disk, after: Disk, id: Identity)
    requires t.journals == after.journals && GoodJournals(t) && OthersSettled(t, id) && id in t.journals && t.journals[id] != [] && SettledAt(after, id)
    requires forall other :: other != id && other in t.journals && t.journals[other] != [] && SettledAt(t, other) ==> SettledAt(after, other)
    ensures forall other :: other in after.journals ==> after.journals[other] != [] && SettledAt(after, other)
  {
    hide SettledAt, GoodJournal;
  }

  lemma GoodJournalsOf(d: Disk)
    requires Sane(d)
    ensures GoodJournals(d) && NoEmptyJournal(d.journals)
  {}

  lemma AllSettled(d: Disk, t: Disk)
    requires Sane(d) && Sane(t) && d.journals == t.journals && Restored(d) == Restored(t)
    requires forall id :: id in d.journals ==> SettledAt(d, id)
    ensures Settled(d) && d == Restored(t)
  {
    hide Restored;
    assert Settled(d) by {
      hide GoodJournal, GoodRecord, WatermarkOf;
      forall id | id in d.journals ensures id in d.attempts && id in d.workItems && id in d.generations && id in d.watermarks {
        assert SettledAt(d, id);
      }
    }
    hide Settled, GoodJournals, NoStrayFiles;
    SettledIsRecovered(d);
  }

  lemma GoodLastRecord(d: Disk, id: Identity)
    requires Sane(d) && id in d.journals
    ensures d.journals[id] != [] && GoodRecord(d.journals[id], id, |d.journals[id]| - 1)
  {
    assert GoodJournal(d.journals[id], id);
  }

  lemma LastIsOf(d: Disk, id: Identity)
    requires Sane(d) && id in d.journals
    ensures d.journals[id] != [] && LastOf(d, id).body.snapshot.identity == id
  {
    GoodLastRecord(d, id);
  }

  /** An unchanged snapshot adds no transition and, on a settled disk, changes no file. */
  lemma UnchangedEvidenceAddsNothing(d: Disk, snapshot: Snapshot, now: string)
    requires Sane(d) && Settled(d)
    requires snapshot.identity in d.journals && LastOf(d, snapshot.identity).body.to == snapshot
    ensures Publish(d, snapshot, now, 5) == Ok(After(d, Some(1)))
  {
    var id := snapshot.identity;
    GoodLatest(d, id);
    hide GoodJournal, Latest;
    assert SettledAt(d, id);
    assert GoodRecord(d.journals[id], id, |d.journals[id]| - 1) by { GoodLastRecord(d, id); }
    hide GoodRecord, WatermarkOf;
    var t := LastOf(d, id);
    assert t.body.snapshot.identity == id by { LastIsOf(d, id); }
    RewritingIsNothing(d.attempts, id, t.body.snapshot);
    RewritingIsNothing(d.workItems, id, t.body.snapshot);
    RewritingIsNothing(d.generations, id, t.body.snapshot);
    RewritingIsNothing(d.watermarks, id, WatermarkOf(t));
    hide Sane, Settled, SettledAt;
  }

  // ---- recovery ----

  lemma {:induction false} RecoveryInvisible(d: Disk, order: seq<Identity>, budget: nat)
    requires Sane(d)
    ensures
      var r := RecoverEach(d, order, budget);
      && r.Ok? && r.value.disk.journals == d.journals && Sane(r.value.disk) && Restored(r.value.disk) == Restored(d)
      && (r.value.left.Some? ==> forall id :: id in d.journals && (id in order || SettledAt(d, id)) ==> SettledAt(r.value.disk, id))
    decreases |order|
  {
    if order != [] {
      GoodLatest(d, order[0]);
      if order[0] in d.journals {
        MaterializeInvisible(d, order[0], budget);
        var after := Materialize(d, order[0], LastOf(d, order[0]), budget);
        if after.left.Some? {
          RecoveryInvisible(after.disk, order[1..], after.left.value);
        }
      } else {
        RecoveryInvisible(d, order[1..], budget);
      }
    }
  }

  /** A recovery that completes makes every file equal its journal's last transition, in whatever order it works. */
  lemma RecoveryRestores(d: Disk, order: seq<Identity>, budget: nat)
    requires Sane(d) && forall id :: id in d.journals ==> id in order
    ensures
      var r := RecoverEach(d, order, budget);
      r.Ok? && (r.value.left.Some? ==> r.value.disk == Restored(d) && Settled(r.value.disk))
  {
    RecoveryInvisible(d, order, budget);
    var r := RecoverEach(d, order, budget);
    if r.value.left.Some? {
      AllSettled(r.value.disk, d);
    }
  }

  /** Recovering twice is recovering once, and dying during recovery loses nothing. */
  lemma RecoveryIsIdempotent(d: Disk, order: seq<Identity>, budget: nat, budget': nat)
    requires Sane(d) && forall id :: id in d.journals ==> id in order
    ensures
      var once := RecoverEach(d, order, budget);
      && once.Ok?
      && var twice := RecoverEach(once.value.disk, order, budget');
         twice.Ok? && (twice.value.left.Some? ==> twice.value.disk == Restored(d))
  {
    RecoveryInvisible(d, order, budget);
    RecoveryRestores(RecoverEach(d, order, budget).value.disk, order, budget');
  }

  // ---- whole runs ----

  lemma {:induction false} PublishingRefines(d: Disk, work: seq<Work>, budget: nat) returns (k: nat)
    requires Sane(d) && Settled(d)
    ensures k <= |work|
    ensures
      var after := PublishEach(d, work, budget);
      && Sane(after.disk) && Restored(after.disk) == Committed(d, work[..k])
      && (after.left.Some? ==> k == |work| && after.disk == Committed(d, work))
    decreases |work|
  {
    hide Publish, Sane, Settled, Recovered;
    SettledIsRecovered(d);
    if work == [] {
      k := 0;
    } else {
      PublishIsAtomic(d, work[0].snapshot, work[0].now, budget);
      var after := Publish(d, work[0].snapshot, work[0].now, budget).value;
      if after.left.None? {
        k := if budget == 0 then 0 else 1;
        if k == 1 {
          assert work[..1][0] == work[0] && work[..1][1..] == [];
        }
      } else {
        var j := PublishingRefines(after.disk, work[1..], after.left.value);
        k := j + 1;
        assert work[..k][0] == work[0] && work[..k][1..] == work[1..][..j];
      }
    }
  }

  /** After a session, killed anywhere or not, recovery yields a crash-free recording of a prefix of its work. */
  lemma SessionRefines(d: Disk, session: Session) returns (k: nat)
    requires Sane(d) && forall id :: id in d.journals ==> id in session.order
    ensures k <= |session.work|
    ensures
      var r := RunSession(d, session);
      && r.Ok? && Sane(r.value.disk) && Restored(r.value.disk) == Committed(Restored(d), session.work[..k])
      && (r.value.left.Some? ==> k == |session.work| && r.value.disk == Committed(Restored(d), session.work))
  {
    RecoveryInvisible(d, session.order, session.budget);
    RecoveryRestores(d, session.order, session.budget);
    var r := RecoverEach(d, session.order, session.budget).value;
    if r.left.Some? {
      k := PublishingRefines(r.disk, session.work, r.left.value);
    } else {
      k := 0;
    }
  }

  /** The work of each session that reached the journal. */
  function Surviving(sessions: seq<Session>, ks: seq<nat>): seq<Work>
    requires |sessions| == |ks| && forall i :: 0 <= i < |ks| ==> ks[i] <= |sessions[i].work|
  {
    if sessions == [] then [] else sessions[0].work[..ks[0]] + Surviving(sessions[1..], ks[1..])
  }

  /** Sessions list every attempt journalled before them. */
  ghost predicate OrdersCover(d: Disk, sessions: seq<Session>)
    decreases |sessions|
  {
    sessions == [] ||
    (&& (forall id :: id in d.journals ==> id in sessions[0].order)
     && (RunSession(d, sessions[0]).Ok? ==> OrdersCover(RunSession(d, sessions[0]).value.disk, sessions[1..])))
  }

  lemma {:induction false} CommittedConcat(d: Disk, a: seq<Work>, b: seq<Work>)
    ensures Committed(d, a + b) == Committed(Committed(d, a), b)
    decreases |a|
  {
    if a == [] {
      assert a + b == b;
    } else {
      assert (a + b)[0] == a[0] && (a + b)[1..] == a[1..] + b;
      match Publish(d, a[0].snapshot, a[0].now, 5)
      case Err(_) => CommittedConcat(d, a[1..], b);
      case Ok(after) => CommittedConcat(after.disk, a[1..], b);
    }
  }

  /**
   Any history of sessions, each killed at any write, recovers to the state of one crash-free run
   that records, session by session, the snapshots whose journal write happened.
   */
  lemma {:induction false} RecoveryRefinesCrashFreeRun(d: Disk, sessions: seq<Session>) returns (ks: seq<nat>)
    requires Sane(d) && OrdersCover(d, sessions)
    ensures |ks| == |sessions| && forall i :: 0 <= i < |ks| ==> ks[i] <= |sessions[i].work|
    ensures
      var r := RunSessions(d, sessions);
      r.Ok? && Sane(r.value) && Restored(r.value) == Committed(Restored(d), Surviving(sessions, ks))
    decreases |sessions|
  {
    if sessions == [] {
      ks := [];
    } else {
      var k := SessionRefines(d, sessions[0]);
      var next := RunSession(d, sessions[0]).value.disk;
      var rest := RecoveryRefinesCrashFreeRun(next, sessions[1..]);
      ks := [k] + rest;
      assert ks[1..] == rest;
      CommittedConcat(Restored(d), sessions[0].work[..k], Surviving(sessions[1..], rest));
    }
  }
}

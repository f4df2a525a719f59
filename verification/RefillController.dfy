/** The capacity-one refill controller, which may die before any of its durable writes. */
module RefillController {
  import opened Outcomes
  import opened PacketSelection
  import opened RefillDispatch
  import opened DecisionBasis
  import opened RefillPlan

  /** The generation file, the jobs branch, and how many more durable writes the process lives to make. */
  datatype Files = Files(file: Option<Generation>, feed: set<Job>, budget: nat)

  function Performed(f: Files, writes: seq<Write>): Files
    decreases |writes|
  {
    if writes == [] || f.budget == 0 then f
    else
      match writes[0]
      case Save(g, _) => Performed(Files(Some(g), f.feed, f.budget - 1), writes[1..])
      case Push(job) => Performed(Files(f.file, f.feed + {job}, f.budget - 1), writes[1..])
  }

  lemma {:induction false} PerformedConcat(f: Files, a: seq<Write>, b: seq<Write>)
    ensures Performed(Performed(f, a), b) == Performed(f, a + b)
    ensures Performed(f, a).budget == if |a| <= f.budget then f.budget - |a| else 0
    decreases |a|
  {
    if a == [] {
      assert a + b == b;
    } else if f.budget > 0 {
      assert (a + b)[0] == a[0] && (a + b)[1..] == a[1..] + b;
      match a[0]
      case Save(g, _) => PerformedConcat(Files(Some(g), f.feed, f.budget - 1), a[1..], b);
      case Push(job) => PerformedConcat(Files(f.file, f.feed + {job}, f.budget - 1), a[1..], b);
    } else {
      assert a + b != [];
    }
  }

  lemma {:induction false} StraysConcat(g: Generation, a: seq<Sighting>, b: seq<Sighting>)
    ensures Strays(g, a + b) == Strays(g, a) + Strays(g, b)
    decreases |a|
  {
    if a == [] {
      assert a + b == b;
    } else {
      assert (a + b)[0] == a[0] && (a + b)[1..] == a[1..] + b;
      StraysConcat(g, a[1..], b);
    }
  }

  class RefillFiles {
    var file: Option<Generation>
    var feed: set<Job>
    var budget: nat

    constructor (file: Option<Generation>, feed: set<Job>, budget: nat)
      ensures Contents() == Files(file, feed, budget)
    {
      this.file, this.feed, this.budget := file, feed, budget;
    }

    function Contents(): Files
      reads this
    {
      Files(file, feed, budget)
    }

    method SaveGeneration(g: Generation, ghost relies: set<Job>) returns (alive: bool)
      modifies this
      ensures alive <==> old(budget) >= 1
      ensures Contents() == Performed(old(Contents()), [Save(g, relies)])
    {
      assert [Save(g, relies)][1..] == [];
      if budget == 0 {
        return false;
      }
      file, budget := Some(g), budget - 1;
      return true;
    }

    method PushJob(job: Job) returns (alive: bool)
      modifies this
      ensures alive <==> old(budget) >= 1
      ensures Contents() == Performed(old(Contents()), [Push(job)])
    {
      assert [Push(job)][1..] == [];
      if budget == 0 {
        return false;
      }
      feed, budget := feed + {job}, budget - 1;
      return true;
    }

    method MatchingSideEffects(g: Generation, sightings: seq<Sighting>, p: Prepared) returns (found: bool, conflict: bool)
      ensures found == HasMatch(g, sightings, p) && conflict == HasConflict(g, sightings, p)
    {
      found, conflict := false, false;
      for i := 0 to |sightings|
        invariant found <==> p.generation == g.id && exists j :: 0 <= j < i && Matches(sightings[j], p)
        invariant conflict <==> exists j :: 0 <= j < i && sightings[j].job == p.attempt.job && !(p.generation == g.id && Matches(sightings[j], p))
      {
        if p.generation == g.id && Matches(sightings[i], p) {
          found := true;
        } else if sightings[i].job == p.attempt.job {
          conflict := true;
        }
      }
    }

    /** Commits a prepared dispatch whose job is already somewhere. */
    method RecoverPreparedDispatch(g: Generation, check: Evidence, sightings: seq<Sighting>)
      returns (alive: bool, stop: Option<Report>, h: Generation)
      modifies this
      ensures
        var phase := RecoverPrepared(g, check, sightings);
        && Contents() == Performed(old(Contents()), phase.writes)
        && (alive <==> |phase.writes| <= old(budget))
        && (alive && phase.Done? ==> stop == Some(phase.report))
        && (alive && phase.Continue? ==> stop == None && h == phase.generation)
    {
      hide BasisError;
      alive, stop, h := true, None, g;
      if g.prepared.Some? {
        var p := g.prepared.value;
        var error := BasisError(check, p);
        if error.Some? {
          alive := SaveGeneration(Block(g), {});
          stop := Some(Report(IsBlocked, OnBasis(error.value)));
          return;
        }
        var found, conflict := MatchingSideEffects(g, sightings, p);
        if conflict {
          alive := SaveGeneration(Block(g), {});
          stop := Some(Report(IsBlocked, PreparedConflict));
        } else if found {
          h := Recorded(g, p.attempt).(prepared := None, state := Submitted);
          alive := SaveGeneration(h, {});
        }
      }
    }

    method UnrecordedCandidates(g: Generation, sightings: seq<Sighting>) returns (candidates: seq<Attempt>, errors: bool)
      ensures candidates == Strays(g, sightings)
      ensures errors <==> exists i :: 0 <= i < |sightings| && sightings[i].claim == BadClaim(g.id)
    {
      candidates, errors := [], false;
      for i := 0 to |sightings|
        invariant candidates == Strays(g, sightings[..i])
        invariant errors <==> exists j :: 0 <= j < i && sightings[j].claim == BadClaim(g.id)
      {
        StraysConcat(g, sightings[..i], [sightings[i]]);
        assert sightings[..i + 1] == sightings[..i] + [sightings[i]];
        if sightings[i].claim == BadClaim(g.id) {
          errors := true;
        } else if IsStray(g, sightings[i]) {
          candidates := candidates + [Claimed(sightings[i])];
        }
      }
      assert sightings[..|sightings|] == sightings;
    }

    /** Adopts an attempt whose job exists but was never recorded. */
    method RecoverUnrecordedAttempt(g: Generation, sightings: seq<Sighting>)
      returns (alive: bool, stop: Option<Report>, h: Generation)
      modifies this
      ensures
        var phase := RecoverUnrecorded(g, sightings);
        && Contents() == Performed(old(Contents()), phase.writes)
        && (alive <==> |phase.writes| <= old(budget))
        && (alive && phase.Done? ==> stop == Some(phase.report))
        && (alive && phase.Continue? ==> stop == None && h == phase.generation)
    {
      alive, stop, h := true, None, g;
      var candidates, errors := UnrecordedCandidates(g, sightings);
      hide Strays;
      var troubled := Block(g).(recoveryError := true);
      if errors {
        alive := SaveGeneration(troubled, {});
        stop := Some(Report(IsBlocked, InvalidAttemptEvidence));
      } else if exists i :: 0 <= i < |candidates| && candidates[i] != candidates[0] {
        alive := SaveGeneration(troubled, {});
        stop := Some(Report(IsBlocked, AmbiguousRecovery));
      } else if candidates == [] {
        if g.recoveryError {
          h := g.(recoveryError := false);
          alive := SaveGeneration(h, {});
        }
      } else if candidates[0].ordinal != |g.sequence| + 1 {
        alive := SaveGeneration(troubled, {});
        stop := Some(Report(IsBlocked, OrdinalConflict));
      } else {
        h := Recorded(g, candidates[0]).(state := RefillDispatch.Recovered);
        alive := SaveGeneration(h, {});
      }
    }

    /** Submits a prepared dispatch, blocking when what was queued is not what was prepared. */
    method SubmitPreparedDispatch(g: Generation, p: Prepared, built: Built) returns (alive: bool, h: Generation)
      modifies this
      ensures
        var sent := SubmitPrepared(g, p, built);
        && Contents() == Performed(old(Contents()), sent.writes)
        && (alive <==> |sent.writes| <= old(budget))
        && h == sent.generation
    {
      alive, h := true, g;
      ghost var pushes := if built.InFeed? && built.isNew then [Push(built.job)] else [];
      if QueuedBuild(built) && (built.job != p.attempt.job || built.work != p.attempt.work) {
        h := Block(g);
      }
      PerformedConcat(Contents(), pushes, [Save(h, {})]);
      if built.InFeed? && built.isNew {
        alive := PushJob(built.job);
        if !alive {
          return;
        }
      }
      if QueuedBuild(built) && (built.job != p.attempt.job || built.work != p.attempt.work) {
        alive := SaveGeneration(h, {});
      }
    }

    method ReplayPreparedDispatch(g: Generation, p: Prepared, r: BuildReads) returns (alive: bool, report: Report)
      modifies this
      ensures
        var plan := Replay(g, p, r);
        && Contents() == Performed(old(Contents()), plan.writes)
        && (alive <==> |plan.writes| <= old(budget))
        && report == plan.report
    {
      hide Build, Performed, Recorded;
      var a := p.attempt;
      var built := Build(g, a.ordinal, a.retry, p.exclusions, a.work.item, true, r);
      report := Report(StatusOf(built), PreparedReconciled);
      ghost var sent := SubmitPrepared(g, p, built);
      PerformedConcat(Contents(), sent.writes, []);
      assert sent.writes + [] == sent.writes;
      var h;
      alive, h := SubmitPreparedDispatch(g, p, built);
      if QueuedBuild(built) && h.state != Blocked {
        var recorded := RecordBuilt(h, a.ordinal, a.retry, a.reason, built);
        PerformedConcat(old(Contents()), sent.writes, [Save(recorded, {})]);
        if alive {
          alive := SaveGeneration(recorded, {});
        } else {
          NothingPerformed(Contents(), [Save(recorded, {})]);
        }
      }
    }

    method ConcludeDispatch(g: Generation, ordinal: nat, retry: nat, reason: Reason, built: Built) returns (alive: bool)
      modifies this
      ensures
        var plan := Conclude(g, ordinal, retry, reason, built);
        && Contents() == Performed(old(Contents()), plan.writes)
        && (alive <==> |plan.writes| <= old(budget))
    {
      hide Recorded;
      alive := true;
      if QueuedBuild(built) && g.state != Blocked {
        alive := SaveGeneration(RecordBuilt(g, ordinal, retry, reason, built), {});
      } else if StatusOf(built) == IsBlocked {
        alive := SaveGeneration(Block(g), {});
      } else if StatusOf(built) == IsUnfilled {
        alive := SaveGeneration(g.(state := Unfilled), {});
      }
    }

    /** Prepares, submits and records a new dispatch. */
    method DispatchNext(g: Generation, v: View, reason: Reason, item: string, exclusions: seq<string>, basis: Option<Basis>,
                        ghost relies: set<Job>)
      returns (alive: bool, report: Report)
      modifies this
      ensures
        var plan := Dispatch(g, v, reason, item, exclusions, basis, relies);
        && Contents() == Performed(old(Contents()), plan.writes)
        && (alive <==> |plan.writes| <= old(budget))
        && report == plan.report
    {
      hide Build, Performed, Conclude, DispatchPrepared;
      var ordinal: nat, retry: nat := |g.sequence| + 1, if reason == ProviderRetry then 1 else 0;
      var dry := Build(g, ordinal, retry, exclusions, item, false, v.dry);
      if dry.Constructed? {
        alive, report := CommitAndSubmit(g, v, PreparedWith(g, reason, ordinal, retry, exclusions, dry, basis), relies);
      } else {
        report := Report(StatusOf(dry), BuildReconciled);
        ConclusionReports(g, ordinal, retry, reason, dry);
        alive := ConcludeDispatch(g, ordinal, retry, reason, dry);
      }
    }

    method CommitAndSubmit(g: Generation, v: View, p: Prepared, ghost relies: set<Job>) returns (alive: bool, report: Report)
      modifies this
      ensures
        var plan := DispatchPrepared(g, v, p, relies);
        && Contents() == Performed(old(Contents()), plan.writes)
        && (alive <==> |plan.writes| <= old(budget))
        && report == plan.report
    {
      hide Build, Performed, BasisError, SubmitPrepared, Conclude;
      var a := p.attempt;
      ghost var start := Contents();
      if BasisError(v.commitCheck, p).Some? {
        ghost var last := Conclude(Block(g), a.ordinal, a.retry, a.reason, Refused(IsBlocked)).writes;
        report := Report(IsBlocked, BuildReconciled);
        ConclusionReports(Block(g), a.ordinal, a.retry, a.reason, Refused(IsBlocked));
        PerformedConcat(start, [Save(Block(g), {})], last);
        alive := SaveGeneration(Block(g), {});
        if alive {
          alive := ConcludeDispatch(Block(g), a.ordinal, a.retry, a.reason, Refused(IsBlocked));
        } else {
          NothingPerformed(Contents(), last);
        }
        return;
      }
      var h := Preparing(g, p);
      var built := Build(h, a.ordinal, a.retry, p.exclusions, a.work.item, true, v.submit);
      report := Report(StatusOf(built), BuildReconciled);
      ghost var sent := SubmitPrepared(h, p, built);
      ghost var last := Conclude(sent.generation, a.ordinal, a.retry, a.reason, built).writes;
      ConclusionReports(sent.generation, a.ordinal, a.retry, a.reason, built);
      PerformedConcat(start, [Save(h, relies)], sent.writes);
      PerformedConcat(start, [Save(h, relies)] + sent.writes, last);
      PerformedConcat(Performed(start, [Save(h, relies)]), sent.writes, []);
      alive := SaveGeneration(h, relies);
      if alive {
        var after;
        alive, after := SubmitPreparedDispatch(h, p, built);
        if alive {
          alive := ConcludeDispatch(after, a.ordinal, a.retry, a.reason, built);
        } else {
          NothingPerformed(Contents(), last);
        }
      } else {
        NothingPerformed(Contents(), sent.writes);
        NothingPerformed(Contents(), last);
      }
    }

    method ChooseNext(g: Generation, v: View, reason: Reason, item: string, basis: Option<Basis>, ghost relies: set<Job>)
      returns (alive: bool, report: Report)
      modifies this
      ensures
        var plan := Choose(g, v, reason, item, basis, relies);
        && Contents() == Performed(old(Contents()), plan.writes)
        && (alive <==> |plan.writes| <= old(budget))
        && (alive ==> report == plan.report)
    {
      hide Performed, Dispatch;
      var exclusions := if item == "" then g.exclusions else Without(g.exclusions, item);
      if v.jit.JitBlocked? {
        report := Report(IsBlocked, CatalogFailed);
        alive := SaveGeneration(Block(g), relies);
        return;
      }
      ghost var plan := Dispatch(g, v, reason, item, exclusions, basis, relies);
      if v.jit.JitNoted? {
        PerformedConcat(Contents(), [Save(g, relies)], plan.writes);
        alive := SaveGeneration(g, relies);
        if !alive {
          NothingPerformed(Contents(), plan.writes);
          report := Report(IsError, NotReached);
          return;
        }
      }
      alive, report := DispatchNext(g, v, reason, item, exclusions, basis, relies);
    }

    /** Classifies the current attempt and dispatches the next one when its item is finished or may be retried. */
    method ProceedWithCurrent(g: Generation, v: View) returns (alive: bool, report: Report)
      modifies this
      ensures
        var plan := Proceed(g, v);
        && Contents() == Performed(old(Contents()), plan.writes)
        && (alive <==> |plan.writes| <= old(budget))
        && (alive ==> report == plan.report)
    {
      hide Performed, Choose, ClassifyAttempt;
      if g.current.None? {
        alive, report := ChooseNext(g, v, Initial, "", None, {});
        return;
      }
      var c := g.current.value;
      match ClassifyAttempt(v.attempt)
      case InFlight =>
        report := Report(IsRunning, TrackedAttempt);
        alive := SaveGeneration(g.(state := Occupied), {});
      case ProviderFailure(retryable, at) =>
        var h := g.(retryAt := if at.Some? then at else g.retryAt);
        if retryable && h.retryAt.Some? && v.now >= h.retryAt.value && !g.retryConsumed {
          alive, report := ChooseNext(h, v, ProviderRetry, c.work.item, None, {c.job});
        } else {
          report := Report(IsBackpressured, ProviderDown);
          alive := SaveGeneration(h.(state := Backpressure), {});
        }
      case Terminal(basis) =>
        var h := ItemExcluded(g, c.work.item, basis);
        ghost var plan := Choose(h, v, Initial, "", basis, {c.job});
        PerformedConcat(Contents(), [Save(h, {c.job})], plan.writes);
        alive := SaveGeneration(h, {c.job});
        if alive {
          alive, report := ChooseNext(h, v, Initial, "", basis, {c.job});
        } else {
          NothingPerformed(Contents(), plan.writes);
          report := Report(IsError, NotReached);
        }
      case Unclear =>
        report := Report(IsBlocked, AmbiguousAttempt);
        alive := SaveGeneration(Block(g), {});
    }

    method AdvanceGeneration(g: Generation, v: View) returns (alive: bool, report: Report)
      modifies this
      ensures
        var plan := Advance(g, v);
        && Contents() == Performed(old(Contents()), plan.writes)
        && (alive <==> |plan.writes| <= old(budget))
        && (alive ==> report == plan.report)
    {
      hide Performed, RecoverPrepared, Replay, Proceed;
      report := Report(IsError, NotReached);
      ghost var phase := RecoverPrepared(g, v.replayCheck, v.sightings);
      ghost var rest: seq<Write> := [];
      if phase.Continue? {
        rest := if phase.generation.prepared.Some? then Replay(phase.generation, phase.generation.prepared.value, v.submit).writes
                else Proceed(phase.generation, v).writes;
      }
      PerformedConcat(Contents(), phase.writes, rest);
      var stop, h;
      alive, stop, h := RecoverPreparedDispatch(g, v.replayCheck, v.sightings);
      if !alive {
        NothingPerformed(Contents(), rest);
      } else if stop.Some? {
        report := stop.value;
      } else if h.prepared.Some? {
        alive, report := ReplayPreparedDispatch(h, h.prepared.value, v.submit);
      } else {
        alive, report := ProceedWithCurrent(h, v);
      }
    }

    /** One reconcile: every durable write it decides on, up to the one it dies before. */
    method ReconcileRefill(v: View) returns (report: Option<Report>)
      modifies this
      ensures
        var plan := Reconcile(old(file), v);
        && Contents() == Performed(old(Contents()), plan.writes)
        && report == if |plan.writes| <= old(budget) then Some(plan.report) else None
    {
      hide Performed, RecoverPrepared, RecoverUnrecorded, Advance;
      ghost var start := Contents();
      NothingToPerform(start);
      if !v.policy.enabled || v.policy.desired == 0 {
        if file.Some? && file.value.state != Paused {
          var alive := SaveGeneration(file.value.(state := Paused), {});
          if !alive {
            return None;
          }
        }
        return Some(Report(IsPaused, FounderPaused));
      }
      if v.policy.desired > 1 {
        return Some(Report(IsError, CapacityAboveOne));
      }
      if !v.healthy {
        return Some(Report(IsBlocked, Unhealthy));
      }
      if file.None? {
        return Some(if Occupancy(v).Some? then Occupancy(v).value else Report(IsBlocked, NoGeneration));
      }
      var g := file.value;
      ghost var plan, phase := Reconcile(file, v), RecoverPrepared(g, v.recoverCheck, v.sightings);
      if phase.Continue? {
        PerformedConcat(start, phase.writes, AfterRecovery(phase.generation, v).writes);
      }
      var alive, stop, h := RecoverPreparedDispatch(g, v.recoverCheck, v.sightings);
      if !alive {
        if phase.Continue? {
          NothingPerformed(Contents(), AfterRecovery(phase.generation, v).writes);
        }
        return None;
      }
      if stop.Some? {
        return stop;
      }
      report := ContinueRefill(h, v);
    }

    method ContinueRefill(g: Generation, v: View) returns (report: Option<Report>)
      modifies this
      ensures
        var plan := AfterRecovery(g, v);
        && Contents() == Performed(old(Contents()), plan.writes)
        && report == if |plan.writes| <= old(budget) then Some(plan.report) else None
    {
      hide Performed, RecoverUnrecorded, Advance;
      ghost var start, phase := Contents(), RecoverUnrecorded(g, v.sightings);
      if phase.Continue? {
        PerformedConcat(start, phase.writes, Advance(phase.generation, v).writes);
      }
      var alive, stop, h := RecoverUnrecordedAttempt(g, v.sightings);
      if !alive {
        if phase.Continue? {
          NothingPerformed(Contents(), Advance(phase.generation, v).writes);
        }
        return None;
      }
      if stop.Some? {
        return stop;
      }
      if Occupancy(v).Some? {
        return Occupancy(v);
      }
      var done;
      alive, done := AdvanceGeneration(h, v);
      report := if alive then Some(done) else None;
    }
  }

  lemma NothingPerformed(f: Files, writes: seq<Write>)
    requires f.budget == 0
    ensures Performed(f, writes) == f
  {}

  lemma NothingToPerform(f: Files)
    ensures Performed(f, []) == f
  {}

  lemma ConclusionReports(g: Generation, ordinal: nat, retry: nat, reason: Reason, built: Built)
    ensures Conclude(g, ordinal, retry, reason, built).report == Report(StatusOf(built), BuildReconciled)
  {}
}

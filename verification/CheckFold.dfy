/** Deciding which observation of a required check counts, and whether all required checks are green. */
module CheckFold {
  import opened Outcomes
  import opened Text

  /** One reported state of a check; an empty time means the report carried none. States are stripped and lower-case. */
  datatype Observation = Observation(name: string, state: string, observedAt: string)

  predicate Succeeded(state: string) { state in ["success", "neutral", "skipped"] }

  predicate Pending(state: string) { state in ["pending", "queued", "in_progress", "waiting", "requested"] }

  predicate Failed(state: string) { state in ["failure", "failed", "error", "timed_out", "action_required"] }

  predicate Cancelled(state: string) { state in ["cancelled", "canceling", "stale", "startup_failure"] }

  /** The tie-breaker among observations of one time, and the class a state belongs to. */
  function Preference(state: string): nat {
    if Succeeded(state) then 4 else if Pending(state) then 3 else if Failed(state) then 2 else if Cancelled(state) then 1 else 0
  }

  predicate Blocking(state: string) { Failed(state) || Pending(state) }

  predicate Timed(o: Observation) { o.observedAt != "" }

  /** Whether a later observation of the same name takes the place of the one kept so far. */
  predicate Replaces(candidate: Observation, existing: Observation) {
    if Timed(candidate) && Timed(existing) then
      if Before(existing.observedAt, candidate.observedAt) then true
      else if Before(candidate.observedAt, existing.observedAt) then false
      else Preference(candidate.state) > Preference(existing.state)
    else if Timed(candidate) then !(Blocking(existing.state) && !Blocking(candidate.state))
    else if Timed(existing) then Blocking(candidate.state)
    else Preference(candidate.state) > Preference(existing.state)
  }

  function Keep(existing: Option<Observation>, candidate: Observation): Observation {
    if existing.None? || Replaces(candidate, existing.value) then candidate else existing.value
  }

  /** The observation of a name that is kept after reading a list from the left. */
  function Kept(checks: seq<Observation>, name: string): Option<Observation> {
    if checks == [] then None
    else
      var front, last := checks[..|checks| - 1], checks[|checks| - 1];
      if last.name == "" || last.name != name then Kept(front, name) else Some(Keep(Kept(front, name), last))
  }

  datatype Objection = CheckMissing | CheckPending | CheckCancelled | CheckFailed | CheckUnknown

  /** Why a kept observation does not allow the merge, if it does not. */
  function ObjectionTo(kept: Option<Observation>): Option<Objection> {
    match kept
    case None => Some(CheckMissing)
    case Some(o) =>
      if Succeeded(o.state) then None
      else if Pending(o.state) then Some(CheckPending)
      else if Cancelled(o.state) then Some(CheckCancelled)
      else if Failed(o.state) then Some(CheckFailed)
      else Some(CheckUnknown)
  }

  /** The first required check that objects decides; otherwise all are green. */
  function Verdict(checks: seq<Observation>, required: seq<string>): Option<Objection> {
    if required == [] then None
    else
      var objection := ObjectionTo(Kept(checks, required[0]));
      if objection.Some? then objection else Verdict(checks, required[1..])
  }

  method ValidateRequiredChecks(checks: seq<Observation>, required: seq<string>) returns (r: Result<map<string, Observation>, Objection>)
    ensures r.Err? <==> Verdict(checks, required).Some?
    ensures r.Err? ==> Some(r.error) == Verdict(checks, required)
    ensures r.Ok? ==> r.value.Keys == (set name | name in required) && forall name :: name in required ==> Some(r.value[name]) == Kept(checks, name)
  {
    var byName: map<string, Observation> := map[];
    for i := 0 to |checks|
      invariant forall name :: (name in byName <==> Kept(checks[..i], name).Some?) && (name in byName ==> Kept(checks[..i], name) == Some(byName[name]))
    {
      assert checks[..i + 1][..i] == checks[..i];
      var candidate := checks[i];
      if candidate.name != "" {
        if candidate.name !in byName || Replaces(candidate, byName[candidate.name]) {
          byName := byName[candidate.name := candidate];
        }
      }
    }
    assert checks[..|checks|] == checks;
    var evidence: map<string, Observation> := map[];
    for i := 0 to |required|
      invariant evidence.Keys == set name | name in required[..i]
      invariant forall name :: name in required[..i] ==> name in evidence && Some(evidence[name]) == Kept(checks, name)
      invariant Verdict(checks, required) == Verdict(checks, required[i..])
    {
      var name := required[i];
      var kept := if name in byName then Some(byName[name]) else None;
      var objection := ObjectionTo(kept);
      assert required[i..][1..] == required[i + 1..] && required[i..][0] == name;
      if objection.Some? {
        return Err(objection.value);
      }
      assert required[..i + 1] == required[..i] + [name];
      evidence := evidence[name := kept.value];
    }
    assert required[|required|..] == [] && required[..|required|] == required;
    return Ok(evidence);
  }

  // ---- which lists may be read in any order ----

  predicate About(o: Observation, name: string) { o.name == name && name != "" }

  /** At least as good a witness: later, or as late and preferred. */
  predicate NoBetter(a: Observation, b: Observation) {
    Before(a.observedAt, b.observedAt) || (a.observedAt == b.observedAt && Preference(a.state) <= Preference(b.state))
  }

  /** Timed observations compare by time then preference, and beat untimed ones. */
  predicate Weaker(a: Observation, b: Observation) {
    if Timed(a) then Timed(b) && NoBetter(a, b) else Timed(b) || Preference(a.state) <= Preference(b.state)
  }

  lemma WeakerIsTransitive(a: Observation, b: Observation, c: Observation)
    requires Weaker(a, b) && Weaker(b, c)
    ensures Weaker(a, c)
  {
    if Before(a.observedAt, b.observedAt) && Before(b.observedAt, c.observedAt) {
      BeforeIsTransitive(a.observedAt, b.observedAt, c.observedAt);
    }
  }

  /**
   When no untimed observation of the name fails or is pending, the kept one is the newest timed
   observation, ties going to the preferred state; untimed ones count only when none is timed.
   */
  lemma {:induction false} NewestIsKept(checks: seq<Observation>, name: string)
    requires forall o :: o in checks && About(o, name) && !Timed(o) ==> !Blocking(o.state)
    ensures
      match Kept(checks, name)
      case None => forall o :: o in checks ==> !About(o, name)
      case Some(k) => k in checks && About(k, name) && forall o :: o in checks && About(o, name) ==> Weaker(o, k)
  {
    if checks != [] {
      var front, last := checks[..|checks| - 1], checks[|checks| - 1];
      forall o | o in front ensures o in checks {}
      NewestIsKept(front, name);
      if About(last, name) {
        var k := Kept(checks, name).value;
        if Kept(front, name).Some? {
          var e := Kept(front, name).value;
          BeforeIsTotal(e.observedAt, last.observedAt);
          BeforeIsIrreflexive(e.observedAt);
          assert Weaker(e, k) && Weaker(last, k);
          forall o | o in front && About(o, name) ensures Weaker(o, k) {
            WeakerIsTransitive(o, e, k);
          }
        }
        BeforeIsIrreflexive(last.observedAt);
        assert Weaker(last, k);
        forall o | o in checks && About(o, name) ensures Weaker(o, k) {
          assert o in front || o == last;
        }
      } else {
        forall o | o in checks && About(o, name) ensures o in front {
          assert o in front || o == last;
        }
      }
    }
  }

  /** The kept time and state class then do not depend on the order of the list. */
  lemma NewestIgnoresOrder(a: seq<Observation>, b: seq<Observation>, name: string)
    requires forall o :: o in a <==> o in b
    requires forall o :: o in a && About(o, name) && !Timed(o) ==> !Blocking(o.state)
    ensures Kept(a, name).Some? <==> Kept(b, name).Some?
    ensures Kept(a, name).Some? ==>
      && Kept(a, name).value.observedAt == Kept(b, name).value.observedAt
      && Preference(Kept(a, name).value.state) == Preference(Kept(b, name).value.state)
  {
    NewestIsKept(a, name);
    NewestIsKept(b, name);
    if Kept(a, name).Some? {
      var x, y := Kept(a, name).value, Kept(b, name).value;
      assert Weaker(x, y) && Weaker(y, x);
      BeforeIsTotal(x.observedAt, y.observedAt);
    }
  }

  /**
   When every untimed observation of the name fails or is pending and no timed one does, the kept one
   is the preferred untimed one: in every order, any untimed failure or pending report blocks.
   */
  lemma {:induction false} UntimedBlocks(checks: seq<Observation>, name: string)
    requires forall o :: o in checks && About(o, name) ==> (Blocking(o.state) <==> !Timed(o))
    ensures (exists o :: o in checks && About(o, name) && !Timed(o)) ==> Kept(checks, name).Some? && Blocking(Kept(checks, name).value.state)
    ensures Kept(checks, name).Some? ==>
      var k := Kept(checks, name).value;
      && k in checks && About(k, name)
      && forall o :: o in checks && About(o, name) && !Timed(o) ==> !Timed(k) && Preference(o.state) <= Preference(k.state)
  {
    if checks != [] {
      var front, last := checks[..|checks| - 1], checks[|checks| - 1];
      forall o | o in front ensures o in checks {}
      UntimedBlocks(front, name);
      forall o | o in checks && About(o, name) && !Timed(o) ensures o in front || o == last {}
    }
  }

  // ---- exactly when the order decides ----

  /** The check lets the merge through. */
  predicate Passes(checks: seq<Observation>, name: string) { ObjectionTo(Kept(checks, name)).None? }

  predicate Reordered(a: seq<Observation>, b: seq<Observation>) { multiset(a) == multiset(b) }

  predicate UntimedBlock(o: Observation, name: string) { About(o, name) && !Timed(o) && Blocking(o.state) }

  predicate UntimedSuccess(o: Observation, name: string) { About(o, name) && !Timed(o) && Succeeded(o.state) }

  /** A timed failure or pending report that a timed success at the same time or later would replace. */
  predicate Cleared(block: Observation, success: Observation, name: string) {
    && About(block, name) && Timed(block) && Blocking(block.state)
    && About(success, name) && Timed(success) && Succeeded(success.state)
    && !Before(success.observedAt, block.observedAt)
  }

  /**
   Some untimed report of the name fails or is pending, some report is timed, and either an untimed report
   succeeded or a timed failing or pending report is no later than a timed success.
   */
  ghost predicate OrderMatters(checks: seq<Observation>, name: string) {
    && (exists o :: o in checks && UntimedBlock(o, name))
    && (exists o :: o in checks && About(o, name) && Timed(o))
    && ((exists o :: o in checks && UntimedSuccess(o, name))
        || exists o, p :: o in checks && p in checks && Cleared(o, p, name))
  }

  lemma KeptAppended(front: seq<Observation>, o: Observation, name: string)
    ensures Kept(front + [o], name) == if About(o, name) then Some(Keep(Kept(front, name), o)) else Kept(front, name)
  {
    assert (front + [o])[..|front|] == front;
  }

  lemma {:induction false} KeptWithout(checks: seq<Observation>, i: int, name: string)
    requires 0 <= i < |checks| && checks[i].name != name
    ensures Kept(checks[..i] + checks[i + 1..], name) == Kept(checks, name)
    decreases |checks|
  {
    var n := |checks| - 1;
    if i == n {
      assert checks[..i] + checks[i + 1..] == checks[..n];
    } else {
      var front, last := checks[..n], checks[n];
      KeptWithout(front, i, name);
      assert checks[..i] + checks[i + 1..] == (front[..i] + front[i + 1..]) + [last];
      KeptAppended(front[..i] + front[i + 1..], last, name);
    }
  }

  lemma MovedLast(checks: seq<Observation>, o: Observation) returns (rest: seq<Observation>)
    requires o in checks
    ensures multiset(rest + [o]) == multiset(checks)
    ensures forall p :: p in checks && p != o ==> p in rest
    ensures forall name :: name != o.name ==> Kept(rest, name) == Kept(checks, name)
  {
    var i :| 0 <= i < |checks| && checks[i] == o;
    rest := checks[..i] + checks[i + 1..];
    forall name | name != o.name ensures Kept(rest, name) == Kept(checks, name) {
      KeptWithout(checks, i, name);
    }
    assert checks == checks[..i] + [o] + checks[i + 1..];
    forall p | p in checks && p != o ensures p in rest {
      assert multiset(checks)[p] == multiset(rest)[p];
    }
  }

  /** A timed report and then an untimed block, read last, stop the merge. */
  lemma StoppingOrder(checks: seq<Observation>, name: string, block: Observation, timed: Observation) returns (b: seq<Observation>)
    requires block in checks && UntimedBlock(block, name)
    requires timed in checks && About(timed, name) && Timed(timed)
    ensures Reordered(checks, b) && !Passes(b, name)
  {
    var front := MovedLast(checks, block);
    assert timed in front;
    var rest := MovedLast(front, timed);
    b := rest + [timed] + [block];
    assert multiset(b) == multiset(front) + multiset([block]) == multiset(checks);
    StoppedAtEnd(rest, name, block, timed);
    hide Passes;
  }

  lemma StoppedAtEnd(rest: seq<Observation>, name: string, block: Observation, timed: Observation)
    requires UntimedBlock(block, name) && About(timed, name) && Timed(timed)
    ensures !Passes(rest + [timed] + [block], name)
  {
    KeptAppended(rest, timed, name);
    KeptAppended(rest + [timed], block, name);
    hide Kept;
  }

  /** An untimed block and then an untimed success, read last, let the merge through. */
  lemma PassingAfterUntimed(checks: seq<Observation>, name: string, block: Observation, success: Observation) returns (b: seq<Observation>)
    requires block in checks && UntimedBlock(block, name)
    requires success in checks && UntimedSuccess(success, name)
    ensures Reordered(checks, b) && Passes(b, name)
    ensures forall other :: other != name ==> Kept(b, other) == Kept(checks, other)
  {
    var front := MovedLast(checks, success);
    var rest := MovedLast(front, block);
    b := rest + [block] + [success];
    assert multiset(b) == multiset(front) + multiset([success]) == multiset(checks);
    KeptAppended(rest, block, name);
    KeptAppended(rest + [block], success, name);
    forall other | other != name ensures Kept(b, other) == Kept(checks, other) {
      KeptAppended(rest, block, other);
      KeptAppended(rest + [block], success, other);
    }
  }

  /** So do an untimed block, a timed one that takes its place, and the timed success that replaces that. */
  lemma PassingAfterTimed(checks: seq<Observation>, name: string, block: Observation, stamped: Observation, success: Observation)
    returns (b: seq<Observation>)
    requires block in checks && UntimedBlock(block, name)
    requires stamped in checks && success in checks && Cleared(stamped, success, name)
    ensures Reordered(checks, b) && Passes(b, name)
    ensures forall other :: other != name ==> Kept(b, other) == Kept(checks, other)
  {
    var front := MovedLast(checks, success);
    var middle := MovedLast(front, stamped);
    var rest := MovedLast(middle, block);
    b := rest + [block] + [stamped] + [success];
    assert multiset(b) == multiset(middle) + multiset([stamped]) + multiset([success]);
    assert multiset(front) == multiset(middle) + multiset([stamped]);
    KeptAppended(rest, block, name);
    KeptAppended(rest + [block], stamped, name);
    KeptAppended(rest + [block] + [stamped], success, name);
    forall other | other != name ensures Kept(b, other) == Kept(checks, other) {
      KeptAppended(rest, block, other);
      KeptAppended(rest + [block], stamped, other);
      KeptAppended(rest + [block] + [stamped], success, other);
    }
  }

  /** Where the order matters, some order passes, and leaves what is kept of every other name as it was. */
  lemma PassingOrder(checks: seq<Observation>, name: string) returns (b: seq<Observation>)
    requires OrderMatters(checks, name)
    ensures Reordered(checks, b) && Passes(b, name)
    ensures forall other :: other != name ==> Kept(b, other) == Kept(checks, other)
  {
    var block :| block in checks && UntimedBlock(block, name);
    if success :| success in checks && UntimedSuccess(success, name) {
      b := PassingAfterUntimed(checks, name, block, success);
    } else {
      var o, p :| o in checks && p in checks && Cleared(o, p, name);
      b := PassingAfterTimed(checks, name, block, o, p);
    }
  }

  /** Kept while an untimed block has been read and no order can clear it. */
  predicate Stuck(checks: seq<Observation>, kept: Observation, name: string) {
    && kept in checks && About(kept, name)
    && if Timed(kept) then exists o :: o in checks && About(o, name) && Timed(o) && Blocking(o.state) && !Before(kept.observedAt, o.observedAt)
       else Blocking(kept.state)
  }

  /** With no untimed success to replace it, an untimed block is followed only by blocks and what comes after timed ones. */
  lemma {:induction false} BlockSticks(checks: seq<Observation>, name: string)
    requires forall o :: o in checks ==> !UntimedSuccess(o, name)
    requires exists o :: o in checks && UntimedBlock(o, name)
    ensures Kept(checks, name).Some? && Stuck(checks, Kept(checks, name).value, name)
  {
    var front, last := checks[..|checks| - 1], checks[|checks| - 1];
    assert checks == front + [last];
    KeptAppended(front, last, name);
    if exists o :: o in front && UntimedBlock(o, name) {
      BlockSticks(front, name);
      StuckGrows(front, last, name);
    } else {
      KeptIsRead(front, name);
    }
  }

  lemma StuckGrows(front: seq<Observation>, last: Observation, name: string)
    requires !UntimedSuccess(last, name) && Kept(front, name).Some? && Stuck(front, Kept(front, name).value, name)
    ensures
      var k := if About(last, name) then Keep(Kept(front, name), last) else Kept(front, name).value;
      Stuck(front + [last], k, name)
  {
    var k := Kept(front, name).value;
    var checks := front + [last];
    assert last in checks && forall o :: o in front ==> o in checks;
    BeforeIsIrreflexive(last.observedAt);
    if About(last, name) && Replaces(last, k) && Timed(last) && Timed(k) {
      var o :| o in front && About(o, name) && Timed(o) && Blocking(o.state) && !Before(k.observedAt, o.observedAt);
      BeforeIsTotal(k.observedAt, last.observedAt);
      NoEarlierThanEither(o.observedAt, k.observedAt, last.observedAt);
    }
  }

  lemma NoEarlierThanEither(o: string, k: string, last: string)
    requires !Before(k, o) && !Before(last, k)
    ensures !Before(last, o)
  {
    BeforeIsTotal(o, k);
    BeforeIsTotal(k, last);
    if Before(last, o) {
      if o == k || last == k {
      } else {
        BeforeIsTransitive(k, last, o);
      }
    }
  }

  lemma {:induction false} KeptIsRead(checks: seq<Observation>, name: string)
    ensures Kept(checks, name).Some? ==> Kept(checks, name).value in checks && About(Kept(checks, name).value, name)
  {
    if checks != [] {
      KeptIsRead(checks[..|checks| - 1], name);
    }
  }

  /** Untimed reports alone: the preferred state is kept. */
  lemma {:induction false} PreferredIsKept(checks: seq<Observation>, name: string)
    requires forall o :: o in checks && About(o, name) ==> !Timed(o)
    ensures Kept(checks, name).Some? ==>
      forall o :: o in checks && About(o, name) ==> Preference(o.state) <= Preference(Kept(checks, name).value.state)
    ensures Kept(checks, name).None? ==> forall o :: o in checks ==> !About(o, name)
  {
    if checks != [] {
      var front, last := checks[..|checks| - 1], checks[|checks| - 1];
      forall o | o in front ensures o in checks {}
      PreferredIsKept(front, name);
      KeptIsRead(front, name);
      forall o | o in checks ensures o in front || o == last {}
    }
  }

  lemma SameElements(a: seq<Observation>, b: seq<Observation>)
    requires Reordered(a, b)
    ensures forall o :: o in a <==> o in b
  {
    forall o ensures o in a <==> o in b {
      assert o in multiset(a) <==> o in multiset(b);
    }
  }

  /** Outside the condition, the elements of the list decide whether the check passes. */
  lemma OrderFree(a: seq<Observation>, b: seq<Observation>, name: string)
    requires Reordered(a, b) && !OrderMatters(a, name) && Passes(a, name)
    ensures Passes(b, name)
  {
    SameElements(a, b);
    KeptIsRead(a, name);
    KeptIsRead(b, name);
    if !exists o :: o in a && UntimedBlock(o, name) {
      NewestIgnoresOrder(a, b, name);
    } else if !exists o :: o in a && About(o, name) && Timed(o) {
      PreferredIsKept(a, name);
      PreferredIsKept(b, name);
    } else {
      BlockSticks(a, name);
      var k := Kept(a, name).value;
      var o :| o in a && About(o, name) && Timed(o) && Blocking(o.state) && !Before(k.observedAt, o.observedAt);
      assert Cleared(o, k, name);
    }
  }

  /** The order of the reports decides whether a check passes exactly under the condition above. */
  lemma OrderDecidesExactly(checks: seq<Observation>, name: string)
    ensures (exists b :: Reordered(checks, b) && Passes(b, name) != Passes(checks, name)) <==> OrderMatters(checks, name)
  {
    if OrderMatters(checks, name) {
      var block :| block in checks && UntimedBlock(block, name);
      var timed :| timed in checks && About(timed, name) && Timed(timed);
      var stopped := StoppingOrder(checks, name, block, timed);
      var passed := PassingOrder(checks, name);
      assert Passes(stopped, name) != Passes(checks, name) || Passes(passed, name) != Passes(checks, name);
    } else {
      forall b | Reordered(checks, b) ensures Passes(b, name) == Passes(checks, name) {
        SameElements(checks, b);
        assert !OrderMatters(b, name);
        if Passes(checks, name) {
          OrderFree(checks, b, name);
        }
        if Passes(b, name) {
          OrderFree(b, checks, name);
        }
      }
    }
  }

  lemma OrderMattersAlike(a: seq<Observation>, b: seq<Observation>, name: string)
    requires Reordered(a, b)
    ensures OrderMatters(a, name) <==> OrderMatters(b, name)
  {
    SameElements(a, b);
  }

  /** Some order of the reports lets this check pass. */
  ghost predicate CanPass(checks: seq<Observation>, name: string) { Passes(checks, name) || OrderMatters(checks, name) }

  lemma PassingSomewhere(a: seq<Observation>, b: seq<Observation>, name: string)
    requires Reordered(a, b) && Passes(b, name)
    ensures CanPass(a, name)
  {
    hide OrderMatters, Passes;
    OrderDecidesExactly(a, name);
  }

  lemma {:induction false} GreenIsAllPassing(checks: seq<Observation>, required: seq<string>)
    ensures Verdict(checks, required).None? <==> forall name :: name in required ==> Passes(checks, name)
  {
    if required != [] {
      GreenIsAllPassing(checks, required[1..]);
      forall name | name in required ensures name == required[0] || name in required[1..] {}
      assert required[0] in required;
    }
  }

  /** Names that can pass one by one can pass all at once. */
  lemma {:induction false} AllPassing(a: seq<Observation>, required: seq<string>) returns (b: seq<Observation>)
    requires forall name :: name in required ==> CanPass(a, name)
    ensures Reordered(a, b) && forall name :: name in required ==> Passes(b, name)
  {
    if required == [] {
      b := a;
    } else {
      var name := required[0];
      assert name in required;
      b := AllPassing(a, required[1..]);
      if !Passes(b, name) {
        var before := b;
        hide Passes, OrderMatters;
        OrderDecidesExactly(a, name);
        OrderMattersAlike(a, before, name);
        b := PassingOrder(before, name);
        forall other | other in required && other != name ensures Passes(b, other) {
          SameKept(before, b, other);
        }
      }
    }
  }

  lemma SameKept(a: seq<Observation>, b: seq<Observation>, name: string)
    requires Kept(a, name) == Kept(b, name)
    ensures Passes(a, name) == Passes(b, name)
  {}

  /**
   Some order of the reports changes whether the merge is let through exactly when the order matters for a
   required check, and every required check passes now or its order matters.
   */
  lemma GreenDependsOnOrderExactly(a: seq<Observation>, required: seq<string>)
    ensures (exists b :: Reordered(a, b) && Verdict(b, required).None? != Verdict(a, required).None?) <==>
            (exists name :: name in required && OrderMatters(a, name)) && forall name :: name in required ==> CanPass(a, name)
  {
    hide OrderMatters, Passes, Verdict;
    GreenIsAllPassing(a, required);
    if (exists name :: name in required && OrderMatters(a, name)) && forall name :: name in required ==> CanPass(a, name) {
      var name :| name in required && OrderMatters(a, name);
      var passed := AllPassing(a, required);
      var stopped := StoppedFor(a, name);
      GreenIsAllPassing(passed, required);
      GreenIsAllPassing(stopped, required);
      assert Verdict(passed, required).None? && Verdict(stopped, required).Some?;
    }
    forall b | Reordered(a, b) && Verdict(b, required).None? != Verdict(a, required).None?
      ensures (exists name :: name in required && OrderMatters(a, name)) && forall name :: name in required ==> CanPass(a, name)
    {
      GreenIsAllPassing(b, required);
      ChangeIsExplained(a, b, required);
    }
  }

  lemma StoppedFor(checks: seq<Observation>, name: string) returns (b: seq<Observation>)
    requires OrderMatters(checks, name)
    ensures Reordered(checks, b) && !Passes(b, name)
  {
    var block :| block in checks && UntimedBlock(block, name);
    var timed :| timed in checks && About(timed, name) && Timed(timed);
    b := StoppingOrder(checks, name, block, timed);
  }

  lemma ChangeIsExplained(a: seq<Observation>, b: seq<Observation>, required: seq<string>)
    requires Reordered(a, b)
    requires (forall name :: name in required ==> Passes(a, name)) != (forall name :: name in required ==> Passes(b, name))
    ensures exists name :: name in required && OrderMatters(a, name)
    ensures forall name :: name in required ==> CanPass(a, name)
  {
    hide OrderMatters, Passes;
    var name :| name in required && Passes(a, name) != Passes(b, name);
    OrderDecidesExactly(a, name);
    forall other | other in required ensures CanPass(a, other) {
      if Passes(b, other) {
        PassingSomewhere(a, b, other);
      }
    }
  }

  /** An example: the same three reports let the merge through or stop it. */
  lemma OrderMayDecide()
    ensures
      var failed := Observation("tests", "failure", "");
      var rerun := Observation("tests", "success", "");
      var stamped := Observation("tests", "success", "2024");
      Verdict([failed, rerun, stamped], ["tests"]).None? && Verdict([stamped, rerun, failed], ["tests"]) == Some(CheckFailed)
  {
    var failed := Observation("tests", "failure", "");
    var rerun := Observation("tests", "success", "");
    var stamped := Observation("tests", "success", "2024");
    assert Failed(failed.state) && !Succeeded(failed.state) && !Pending(failed.state) && !Cancelled(failed.state) && Succeeded(rerun.state);
    assert rerun.state == stamped.state;
    hide Failed, Succeeded, Pending, Cancelled;
    KeptOfThree(failed, rerun, stamped, "tests");
    KeptOfThree(stamped, rerun, failed, "tests");
    VerdictOfOne([failed, rerun, stamped], "tests");
    VerdictOfOne([stamped, rerun, failed], "tests");
    hide Kept, Verdict;
  }

  lemma VerdictOfOne(checks: seq<Observation>, name: string)
    ensures Verdict(checks, [name]) == ObjectionTo(Kept(checks, name))
  {
    hide Kept, ObjectionTo;
    assert [name][1..] == [];
  }

  lemma KeptOfThree(a: Observation, b: Observation, c: Observation, name: string)
    requires About(a, name) && About(b, name) && About(c, name)
    ensures Kept([a, b, c], name) == Some(Keep(Some(Keep(Some(a), b)), c))
  {
    assert [a, b, c][..2] == [a, b] && [a, b][..1] == [a] && [a][..0] == [];
    assert Kept([a], name) == Some(a);
    assert Kept([a, b], name) == Some(Keep(Some(a), b));
  }
}

/** The chapter backlog and the just-in-time choice of the next chapter to make a packet for. */
module CatalogBacklog {
  import opened Outcomes
  import opened Text

  /** A backlog entry as written; `listed` when it is an object with a catalog order. */
  datatype Entry = Entry(
    listed: bool, order: Option<int>, chapter: string, depends: Option<seq<string>>, related: Option<seq<string>>,
    terminal: Option<bool>, packetization: string, eligibility: string, status: string,
    resolutions: map<string, string>, hasSpec: bool)

  datatype Item = Item(
    chapter: string, order: int, depends: seq<string>, packetization: string, eligibility: string, status: string,
    related: seq<string>, terminal: bool, resolutions: map<string, string>, hasSpec: bool)

  datatype Fault =
    | BadOrder | MissingChapter | DuplicateOrder | DuplicateChapter | BadTerminal | TerminalNeedsRelated
    | BadDepends | DuplicateDepends | BadRelated | DuplicateRelated

  // ---- loading ----

  predicate Named(values: seq<string>) { forall i :: 0 <= i < |values| ==> Strip(values[i]) != "" }

  predicate NoRepeats(values: seq<string>) { forall i, j :: 0 <= i < j < |values| ==> values[i] != values[j] }

  /** Why a listed entry is refused on its own account, if it is. */
  function OwnFault(e: Entry): Option<Fault> {
    if e.order.None? || e.order.value < 1 then Some(BadOrder)
    else if Strip(e.chapter) == "" then Some(MissingChapter)
    else if e.terminal.None? then Some(BadTerminal)
    else if e.terminal.value && (e.related.None? || e.related.value == []) then Some(TerminalNeedsRelated)
    else if e.depends.None? || !Named(e.depends.value) then Some(BadDepends)
    else if !NoRepeats(e.depends.value) then Some(DuplicateDepends)
    else if e.related.None? || !Named(e.related.value) then Some(BadRelated)
    else if !NoRepeats(e.related.value) then Some(DuplicateRelated)
    else None
  }

  function EachStripped(values: seq<string>): seq<string> {
    if values == [] then [] else [Strip(values[0])] + EachStripped(values[1..])
  }

  function ItemOf(e: Entry): Item
    requires OwnFault(e).None?
  {
    Item(Strip(e.chapter), e.order.value, EachStripped(e.depends.value), Strip(e.packetization), Strip(e.eligibility), Strip(e.status),
         EachStripped(e.related.value), e.terminal.value, e.resolutions, e.hasSpec)
  }

  predicate Ascending(items: seq<Item>) { forall i, j :: 0 <= i < j < |items| ==> items[i].order < items[j].order }

  function Placed(items: seq<Item>, item: Item): (r: seq<Item>)
    requires Ascending(items) && forall x :: x in items ==> x.order != item.order
    ensures Ascending(r) && forall x :: x in r <==> x == item || x in items
  {
    if items == [] then [item]
    else if item.order < items[0].order then [item] + items
    else
      assert forall x :: x in items[1..] ==> items[0].order < x.order;
      [items[0]] + Placed(items[1..], item)
  }

  /** A backlog loads exactly when every listed entry is sound and no two share an order or a chapter. */
  predicate Loads(entries: seq<Entry>) {
    && (forall i :: 0 <= i < |entries| && entries[i].listed ==> OwnFault(entries[i]).None?)
    && (forall i, j :: 0 <= i < j < |entries| && entries[i].listed && entries[j].listed ==>
      entries[i].order != entries[j].order && Strip(entries[i].chapter) != Strip(entries[j].chapter))
  }

  /** What has been read of the backlog so far: its items in order, and the orders and chapters taken. */
  ghost predicate Read(entries: seq<Entry>, items: seq<Item>, orders: set<int>, chapters: set<string>) {
    Loads(entries) && Ascending(items) && OrdersAre(entries, orders) && ChaptersAre(entries, chapters) && ItemsAre(entries, items)
  }

  ghost predicate OrdersAre(entries: seq<Entry>, orders: set<int>) {
    forall order :: order in orders <==> exists j :: 0 <= j < |entries| && entries[j].listed && entries[j].order == Some(order)
  }

  ghost predicate ChaptersAre(entries: seq<Entry>, chapters: set<string>) {
    forall chapter :: chapter in chapters <==> exists j :: 0 <= j < |entries| && entries[j].listed && Strip(entries[j].chapter) == chapter
  }

  ghost predicate ItemsAre(entries: seq<Entry>, items: seq<Item>)
    requires Loads(entries)
  {
    forall x :: x in items <==> exists j :: 0 <= j < |entries| && entries[j].listed && ItemOf(entries[j]) == x
  }

  lemma NothingRead()
    ensures Read([], [], {}, {})
  {}

  /** An entry that is not listed changes nothing. */
  lemma Skipped(entries: seq<Entry>, e: Entry, items: seq<Item>, orders: set<int>, chapters: set<string>)
    requires Read(entries, items, orders, chapters) && !e.listed
    ensures Read(entries + [e], items, orders, chapters)
  {
    hide Strip, EachStripped, OwnFault, ItemOf;
    var more := entries + [e];
    assert forall j :: 0 <= j < |more| && more[j].listed ==> j < |entries| && more[j] == entries[j];
    assert forall j :: 0 <= j < |entries| ==> more[j] == entries[j];
  }

  /** A sound listed entry with a new order and chapter is added. */
  lemma Appended(entries: seq<Entry>, e: Entry, items: seq<Item>, orders: set<int>, chapters: set<string>)
    requires Read(entries, items, orders, chapters) && e.listed && OwnFault(e).None?
    requires e.order.value !in orders && Strip(e.chapter) !in chapters
    ensures forall x :: x in items ==> x.order != ItemOf(e).order
    ensures Loads(entries + [e])
    ensures Read(entries + [e], Placed(items, ItemOf(e)), orders + {e.order.value}, chapters + {Strip(e.chapter)})
  {
    OrdersDiffer(entries, e, items, orders, chapters);
    AppendedLoads(entries, e, items, orders, chapters);
    AppendedReads(entries, e, items, orders, chapters);
    hide Loads, Strip, OwnFault, ItemOf;
  }

  lemma OrdersDiffer(entries: seq<Entry>, e: Entry, items: seq<Item>, orders: set<int>, chapters: set<string>)
    requires Read(entries, items, orders, chapters) && OwnFault(e).None? && e.order.value !in orders
    ensures forall x :: x in items ==> x.order != ItemOf(e).order
  {
    hide Strip, EachStripped;
    forall x | x in items ensures x.order != ItemOf(e).order {
      var j :| 0 <= j < |entries| && entries[j].listed && ItemOf(entries[j]) == x;
      assert entries[j].order == Some(x.order);
    }
  }

  lemma AppendedLoads(entries: seq<Entry>, e: Entry, items: seq<Item>, orders: set<int>, chapters: set<string>)
    requires Read(entries, items, orders, chapters) && OwnFault(e).None?
    requires e.order.value !in orders && Strip(e.chapter) !in chapters
    ensures Loads(entries + [e])
  {
    hide Strip, EachStripped, ItemOf;
    var more := entries + [e];
    forall i, j | 0 <= i < j < |more| && more[i].listed && more[j].listed
      ensures more[i].order != more[j].order && Strip(more[i].chapter) != Strip(more[j].chapter)
    {
      assert more[i] == entries[i];
      if j < |entries| {
        assert more[j] == entries[j];
      }
    }
  }

  lemma AppendedReads(entries: seq<Entry>, e: Entry, items: seq<Item>, orders: set<int>, chapters: set<string>)
    requires Read(entries, items, orders, chapters) && e.listed && OwnFault(e).None? && Loads(entries + [e])
    requires forall x :: x in items ==> x.order != ItemOf(e).order
    ensures Read(entries + [e], Placed(items, ItemOf(e)), orders + {e.order.value}, chapters + {Strip(e.chapter)})
  {
    hide OrdersAre, ChaptersAre, ItemsAre, Ascending, Strip, ItemOf;
    assert e.order.Some?;
    AppendedOrders(entries, e, orders);
    AppendedChapters(entries, e, chapters);
    AppendedItems(entries, e, items);
  }

  lemma AppendedOrders(entries: seq<Entry>, e: Entry, orders: set<int>)
    requires OrdersAre(entries, orders) && e.listed && e.order.Some?
    ensures OrdersAre(entries + [e], orders + {e.order.value})
  {
    var more := entries + [e];
    assert more[|entries|] == e && forall j :: 0 <= j < |entries| ==> more[j] == entries[j];
  }

  lemma AppendedChapters(entries: seq<Entry>, e: Entry, chapters: set<string>)
    requires ChaptersAre(entries, chapters) && e.listed
    ensures ChaptersAre(entries + [e], chapters + {Strip(e.chapter)})
  {
    hide Strip;
    var more := entries + [e];
    assert more[|entries|] == e && forall j :: 0 <= j < |entries| ==> more[j] == entries[j];
  }

  lemma AppendedItems(entries: seq<Entry>, e: Entry, items: seq<Item>)
    requires Loads(entries) && Loads(entries + [e]) && e.listed && OwnFault(e).None? && Ascending(items) && ItemsAre(entries, items)
    requires forall x :: x in items ==> x.order != ItemOf(e).order
    ensures ItemsAre(entries + [e], Placed(items, ItemOf(e)))
  {
    hide Strip, ItemOf, OwnFault, Placed;
    var more := entries + [e];
    assert more[|entries|] == e && forall j :: 0 <= j < |entries| ==> more[j] == entries[j];
  }

  method LoadBacklog(entries: seq<Entry>) returns (r: Result<seq<Item>, Fault>)
    ensures r.Ok? <==> Loads(entries)
    ensures r.Ok? ==> Ascending(r.value)
    ensures r.Ok? ==> forall x :: x in r.value <==> exists i :: 0 <= i < |entries| && entries[i].listed && ItemOf(entries[i]) == x
  {
    hide Strip, EachStripped, ItemOf, Placed, Ascending;
    var items: seq<Item> := [];
    var orders: set<int> := {};
    var chapters: set<string> := {};
    NothingRead();
    for i := 0 to |entries|
      invariant Read(entries[..i], items, orders, chapters)
    {
      var e := entries[i];
      assert entries[..i + 1] == entries[..i] + [e];
      if e.listed {
        if e.order.None? || e.order.value < 1 {
          return Err(BadOrder);
        }
        if Strip(e.chapter) == "" {
          return Err(MissingChapter);
        }
        if e.order.value in orders {
          ghost var j :| 0 <= j < i && entries[j].listed && entries[j].order == e.order;
          return Err(DuplicateOrder);
        }
        if Strip(e.chapter) in chapters {
          ghost var j :| 0 <= j < i && entries[j].listed && Strip(entries[j].chapter) == Strip(e.chapter);
          return Err(DuplicateChapter);
        }
        var fault := OwnFault(e);
        if fault.Some? {
          return Err(fault.value);
        }
        Appended(entries[..i], e, items, orders, chapters);
        items, orders, chapters := Placed(items, ItemOf(e)), orders + {e.order.value}, chapters + {Strip(e.chapter)};
      } else {
        Skipped(entries[..i], e, items, orders, chapters);
      }
    }
    assert entries[..|entries|] == entries;
    r := Ok(items);
  }

  // ---- proofs and gates ----

  /** What is known of a chapter's completion; `ids` are the work items a record says it is about. */
  datatype Proof = Plain(merged: bool) | Record(status: string, terminal: bool, disposition: string, ids: set<string>)

  /** Only a merged completion, of the very chapter asked about, proves anything. */
  predicate ProvesMerged(p: Proof, chapter: string) {
    match p
    case Plain(merged) => merged
    case Record(status, terminal, disposition, ids) =>
      (ids == {} || ids == {chapter}) && (status == "merged" || (terminal && disposition == "item_terminal_success_merged"))
  }

  type Proofs = map<string, Proof>

  predicate Proven(proofs: Proofs, chapter: string) { chapter in proofs && ProvesMerged(proofs[chapter], chapter) }

  /** A dependency is met by its own terminal declaration or by a proof, and by nothing else. */
  predicate Met(items: seq<Item>, proofs: Proofs, dep: string) {
    (exists i :: 0 <= i < |items| && items[i].chapter == dep && items[i].terminal) || Proven(proofs, dep)
  }

  predicate RelatedResolved(item: Item, resolved: map<string, bool>) {
    item.eligibility != "blocked_until_predecessor_and_draft_decision"
    || (item.related != [] && forall i :: 0 <= i < |item.related| ==>
          var ref := item.related[i];
          || (ref in resolved && resolved[ref])
          || (ref in item.resolutions && item.resolutions[ref] in ["accepted", "merged", "superseded", "superseded_by_backlog_item"]))
  }

  datatype Decision =
    | NotJit | Completed | ExcludedUnproven | Deferred | Unsupported | BlockedDependencies | BlockedRelated | NoSpec | Eligible

  predicate Supported(eligibility: string) {
    eligibility in ["blocked_until_predecessor_terminal", "blocked_until_predecessor_and_draft_decision",
                    "buildable_via_autobuilder_catalog", "ready"]
  }

  /** What else a choice depends on: the completion proofs, the excluded chapters, and resolved related pull requests. */
  datatype Facts = Facts(proofs: Proofs, excluded: set<string>, resolved: map<string, bool>)

  /** Statuses are lower-case. */
  function Decide(items: seq<Item>, item: Item, f: Facts): Decision {
    if item.packetization != "just_in_time" then NotJit
    else if item.terminal || Proven(f.proofs, item.chapter) then Completed
    else if item.status in ["done", "complete", "completed"] then Completed
    else if item.chapter in f.excluded then ExcludedUnproven
    else if item.status in ["deferred", "skipped"] || StartsWith(item.eligibility, "deferred_") then Deferred
    else if !Supported(item.eligibility) then Unsupported
    else if exists i :: 0 <= i < |item.depends| && !Met(items, f.proofs, item.depends[i]) then BlockedDependencies
    else if !RelatedResolved(item, f.resolved) then BlockedRelated
    else if !item.hasSpec then NoSpec
    else Eligible
  }

  /** The first eligible item, if there is one. */
  function Choice(items: seq<Item>, rest: seq<Item>, f: Facts): Option<Item> {
    if rest == [] then None
    else if Decide(items, rest[0], f).Eligible? then Some(rest[0])
    else Choice(items, rest[1..], f)
  }

  /** No item before this one is eligible, so the evaluation gets to it. */
  predicate Reached(items: seq<Item>, i: int, f: Facts) {
    0 <= i < |items| && forall j :: 0 <= j < i ==> !Decide(items, items[j], f).Eligible?
  }

  /** The item's decision is one to record: it is reached, and packetised just in time. */
  predicate Decided(items: seq<Item>, i: int, f: Facts) { Reached(items, i, f) && !Decide(items, items[i], f).NotJit? }

  method EvaluateEligibility(items: seq<Item>, f: Facts) returns (choice: Option<Item>, decisions: map<string, Decision>)
    ensures choice == Choice(items, items, f)
    ensures forall chapter :: chapter in decisions ==>
      exists i :: Decided(items, i, f) && items[i].chapter == chapter && Decide(items, items[i], f) == decisions[chapter]
    ensures forall i :: Decided(items, i, f) ==> items[i].chapter in decisions
  {
    hide Decide;
    decisions := map[];
    for i := 0 to |items|
      invariant Choice(items, items, f) == Choice(items, items[i..], f)
      invariant forall j :: 0 <= j < i ==> !Decide(items, items[j], f).Eligible?
      invariant forall chapter :: chapter in decisions ==>
        exists j :: Decided(items, j, f) && items[j].chapter == chapter && Decide(items, items[j], f) == decisions[chapter]
      invariant forall j :: 0 <= j < i && Decided(items, j, f) ==> items[j].chapter in decisions
    {
      assert items[i..][0] == items[i] && items[i..][1..] == items[i + 1..];
      var decision := Decide(items, items[i], f);
      if !decision.NotJit? {
        decisions := decisions[items[i].chapter := decision];
        assert Decided(items, i, f);
      }
      if decision.Eligible? {
        assert forall j :: Decided(items, j, f) ==> j <= i;
        return Some(items[i]), decisions;
      }
    }
    assert items[|items|..] == [];
    choice := None;
  }

  // ---- what is chosen ----

  lemma {:induction false} ChoiceIsFirst(items: seq<Item>, rest: seq<Item>, f: Facts) returns (i: nat)
    ensures i <= |rest| && forall j :: 0 <= j < i ==> !Decide(items, rest[j], f).Eligible?
    ensures
      match Choice(items, rest, f)
      case None => i == |rest|
      case Some(item) => i < |rest| && rest[i] == item && Decide(items, item, f).Eligible?
  {
    hide Decide;
    if rest == [] {
      i := 0;
    } else if Decide(items, rest[0], f).Eligible? {
      i := 0;
    } else {
      var k := ChoiceIsFirst(items, rest[1..], f);
      i := k + 1;
      assert forall j :: 1 <= j < i ==> rest[j] == rest[1..][j - 1];
    }
  }

  /**
   The chapter chosen has the lowest order among those that pass every gate; all its dependencies are
   declared terminal or proven merged, and it is itself neither done, excluded nor deferred.
   */
  lemma ChosenChapterIsReady(items: seq<Item>, f: Facts)
    requires Ascending(items)
    ensures
      match Choice(items, items, f)
      case None => forall x :: x in items ==> !Decide(items, x, f).Eligible?
      case Some(item) =>
        && item in items && Decide(items, item, f).Eligible?
        && (forall x :: x in items && Decide(items, x, f).Eligible? && x != item ==> item.order < x.order)
        && (forall i :: 0 <= i < |item.depends| ==> Met(items, f.proofs, item.depends[i]))
        && !item.terminal && !Proven(f.proofs, item.chapter) && item.chapter !in f.excluded && RelatedResolved(item, f.resolved) && item.hasSpec
  {
    var k := ChoiceIsFirst(items, items, f);
    hide Choice;
    forall x | x in items ensures Choice(items, items, f).Some? && x != Choice(items, items, f).value && Decide(items, x, f).Eligible? ==>
      Choice(items, items, f).value.order < x.order
    {
      hide Decide;
      var j :| 0 <= j < |items| && items[j] == x;
    }
  }

  function WithStatuses(items: seq<Item>, statuses: map<string, string>): seq<Item> {
    if items == [] then []
    else [if items[0].chapter in statuses then items[0].(status := statuses[items[0].chapter]) else items[0]] + WithStatuses(items[1..], statuses)
  }

  lemma {:induction false} StatusesKeepTheRest(items: seq<Item>, statuses: map<string, string>)
    ensures |WithStatuses(items, statuses)| == |items|
    ensures forall i :: 0 <= i < |items| ==> WithStatuses(items, statuses)[i] == items[i].(status := WithStatuses(items, statuses)[i].status)
  {
    if items != [] {
      StatusesKeepTheRest(items[1..], statuses);
    }
  }

  /** No status in the backlog, `done` included, and no exclusion ever unlocks a dependant. */
  lemma OnlyProofUnlocks(items: seq<Item>, statuses: map<string, string>, item: Item, f: Facts, excluded: set<string>)
    requires Decide(items, item, f).BlockedDependencies?
    ensures !Decide(WithStatuses(items, statuses), item, f.(excluded := excluded)).Eligible?
  {
    StatusesKeepTheRest(items, statuses);
    var others := WithStatuses(items, statuses);
    var i :| 0 <= i < |item.depends| && !Met(items, f.proofs, item.depends[i]);
    var dep := item.depends[i];
    assert !Met(others, f.proofs, dep) by {
      assert forall j :: 0 <= j < |items| ==> others[j].chapter == items[j].chapter && others[j].terminal == items[j].terminal;
    }
    hide WithStatuses, Met, RelatedResolved;
  }

  // ---- over time ----

  /** Chapters are chosen, and chosen chapters may be merged; a merge is the only source of proofs. */
  datatype Event = Choose(excluded: set<string>, resolved: map<string, bool>) | Merge(chapter: string)

  datatype History = History(chosen: seq<string>, merged: set<string>)

  function ProofsOf(merged: set<string>): Proofs { map chapter | chapter in merged :: Plain(true) }

  function Step(items: seq<Item>, h: History, e: Event): History {
    match e
    case Choose(excluded, resolved) =>
      var choice := Choice(items, items, Facts(ProofsOf(h.merged), excluded, resolved));
      if choice.None? then h else h.(chosen := h.chosen + [choice.value.chapter])
    case Merge(chapter) => if chapter in h.chosen then h.(merged := h.merged + {chapter}) else h
  }

  function After(items: seq<Item>, h: History, events: seq<Event>): History
    decreases |events|
  {
    if events == [] then h else After(items, Step(items, h, events[0]), events[1..])
  }

  predicate DeclaredTerminal(items: seq<Item>, chapter: string) {
    exists i :: 0 <= i < |items| && items[i].chapter == chapter && items[i].terminal
  }

  /** Each choice comes after the choices of all its dependencies that are not declared terminal. */
  predicate Topological(items: seq<Item>, chosen: seq<string>) {
    forall k, i, d | 0 <= k < |chosen| && 0 <= i < |items| && items[i].chapter == chosen[k] && 0 <= d < |items[i].depends| ::
      DeclaredTerminal(items, items[i].depends[d]) || items[i].depends[d] in chosen[..k]
  }

  predicate UniqueChapters(items: seq<Item>) { forall i, j :: 0 <= i < j < |items| ==> items[i].chapter != items[j].chapter }

  lemma ChoosingStaysTopological(items: seq<Item>, h: History, f: Facts)
    requires Ascending(items) && UniqueChapters(items) && Topological(items, h.chosen)
    requires f.proofs == ProofsOf(h.merged) && forall chapter :: chapter in h.merged ==> chapter in h.chosen
    requires Choice(items, items, f).Some?
    ensures Topological(items, h.chosen + [Choice(items, items, f).value.chapter])
  {
    var item := Choice(items, items, f).value;
    var chosen := h.chosen + [item.chapter];
    hide Choice, Decide, RelatedResolved;
    forall k, i, d | 0 <= k < |chosen| && 0 <= i < |items| && items[i].chapter == chosen[k] && 0 <= d < |items[i].depends|
      && !DeclaredTerminal(items, items[i].depends[d])
      ensures items[i].depends[d] in chosen[..k]
    {
      if k < |h.chosen| {
        assert chosen[..k] == h.chosen[..k];
      } else {
        assert chosen[..k] == h.chosen;
        ChosenDependsOnChosen(items, h, f, i, d);
      }
    }
  }

  lemma ChosenDependsOnChosen(items: seq<Item>, h: History, f: Facts, i: int, d: int)
    requires Ascending(items) && UniqueChapters(items) && Choice(items, items, f).Some?
    requires f.proofs == ProofsOf(h.merged) && forall chapter :: chapter in h.merged ==> chapter in h.chosen
    requires 0 <= i < |items| && items[i].chapter == Choice(items, items, f).value.chapter && 0 <= d < |items[i].depends|
    requires !DeclaredTerminal(items, items[i].depends[d])
    ensures items[i].depends[d] in h.chosen
  {
    ChosenChapterIsReady(items, f);
    hide Choice, Decide, RelatedResolved, Ascending;
    var item := Choice(items, items, f).value;
    var n :| 0 <= n < |items| && items[n] == item;
    assert i == n;
    assert Met(items, f.proofs, item.depends[d]);
  }

  /** Whatever is excluded and resolved on the way, chapters are chosen in an order that respects every dependency. */
  lemma {:induction false} ChoicesAreTopological(items: seq<Item>, h: History, events: seq<Event>)
    requires Ascending(items) && UniqueChapters(items) && Topological(items, h.chosen)
    requires forall chapter :: chapter in h.merged ==> chapter in h.chosen
    ensures Topological(items, After(items, h, events).chosen)
    decreases |events|
  {
    if events != [] {
      var next := Step(items, h, events[0]);
      if events[0].Choose? {
        var f := Facts(ProofsOf(h.merged), events[0].excluded, events[0].resolved);
        if Choice(items, items, f).Some? {
          ChoosingStaysTopological(items, h, f);
        }
      }
      hide Topological, Choice;
      ChoicesAreTopological(items, next, events[1..]);
    }
  }

  // ---- exactly what makes a chapter eligible ----

  /**
   A chapter is eligible exactly if it is packetised just in time with a known eligibility and a specification, it is
   neither done by declaration, proof or status nor excluded nor deferred, every dependency is declared terminal or
   proven merged, and its related pull requests are resolved.
   */
  lemma EligibleExactly(items: seq<Item>, item: Item, f: Facts)
    ensures Decide(items, item, f).Eligible? <==>
      && item.packetization == "just_in_time" && Supported(item.eligibility) && item.hasSpec
      && !item.terminal && !Proven(f.proofs, item.chapter) && item.status !in ["done", "complete", "completed"]
      && item.chapter !in f.excluded && item.status !in ["deferred", "skipped"] && !StartsWith(item.eligibility, "deferred_")
      && (forall i :: 0 <= i < |item.depends| ==> DeclaredTerminal(items, item.depends[i]) || Proven(f.proofs, item.depends[i]))
      && RelatedResolved(item, f.resolved)
  {
    hide Supported, RelatedResolved, StartsWith, Proven;
    forall i | 0 <= i < |item.depends| ensures Met(items, f.proofs, item.depends[i]) <==>
      DeclaredTerminal(items, item.depends[i]) || Proven(f.proofs, item.depends[i]) {}
  }
}

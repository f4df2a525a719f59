/** Extraction of one work item's exact source bytes from a printed portfolio snapshot. */
module WorkItemSource {
  import opened Outcomes
  import opened JsonText
  import opened JsonScanner
  import opened JsonArrays
  import opened JsonOwnership

  datatype SourceError = BadText | Ambiguous

  function UniquePipeline(text: string, spans: seq<Span>, isPipeline: string -> bool): Result<Option<Span>, ScanError>
    requires Fitting(text, spans)
  {
    if spans == [] then Ok(None)
    else
      match DirectNamedArrayRanges(text, spans, spans[|spans| - 1], "pipelines")
      case Err(e) => Err(e)
      case Ok(arrays) =>
        if |arrays| != 1 then Ok(None)
        else
          var matching := Keep(DirectObjectElements(spans, arrays[0]), s => Slice(text, s, isPipeline));
          Ok(if |matching| == 1 then Some(matching[0]) else None)
  }

  function ReadyWorkElements(text: string, spans: seq<Span>, isPipeline: string -> bool): Result<seq<Span>, ScanError>
    requires Fitting(text, spans)
  {
    match UniquePipeline(text, spans, isPipeline)
    case Err(e) => Err(e)
    case Ok(None) => Ok([])
    case Ok(Some(pipeline)) =>
      match DirectNamedArrayRanges(text, spans, pipeline, "ready_work")
      case Err(e) => Err(e)
      case Ok(arrays) => Ok(if |arrays| == 1 then DirectObjectElements(spans, arrays[0]) else [])
  }

  predicate Fitting(text: string, spans: seq<Span>) {
    forall s :: s in spans ==> s.start <= s.end <= |text|
  }

  /** The parsed object at this span passes the test; `isSo` stands for the parse and the field checks. */
  predicate Slice(text: string, s: Span, isSo: string -> bool) {
    s.start <= s.end <= |text| && isSo(text[s.start..s.end])
  }

  /** The source text of the one ready work item that passes `isWanted`. */
  method WorkItemSourceBytes(text: string, isPipeline: string -> bool, isWanted: string -> bool)
    returns (r: Result<string, SourceError>)
    ensures r == SourceBytes(text, isPipeline, isWanted)
  {
    var scanned := JsonObjectSpans(text);
    if scanned.Err? {
      return Err(BadText);
    }
    ScannedFit(text);
    var ready := ReadyWorkElements(text, scanned.value, isPipeline);
    if ready.Err? {
      return Err(BadText);
    }
    var matches := CollectWanted(text, scanned.value, ready.value, isWanted);
    if |matches| != 1 {
      return Err(Ambiguous);
    }
    return Ok(matches[0]);
  }

  method CollectWanted(text: string, spans: seq<Span>, ready: seq<Span>, isWanted: string -> bool)
    returns (matches: seq<string>)
    requires Fitting(text, spans)
    ensures matches == Wanted(text, spans, ready, isWanted)
  {
    hide Wanted;
    matches := [];
    var i := 0;
    WantedEnds(text, spans, ready, isWanted);
    while i < |spans|
      invariant 0 <= i <= |spans|
      invariant Wanted(text, spans, ready, isWanted) == matches + Wanted(text, spans[i..], ready, isWanted)
    {
      var s := spans[i];
      WantedStep(text, spans, i, ready, isWanted);
      if s in ready && isWanted(text[s.start..s.end]) {
        matches := matches + [text[s.start..s.end]];
      }
      i := i + 1;
    }
  }

  function Wanted(text: string, spans: seq<Span>, ready: seq<Span>, isWanted: string -> bool): seq<string>
    requires Fitting(text, spans)
  {
    if spans == [] then []
    else
      var s := spans[0];
      assert s in spans;
      var candidate := text[s.start..s.end];
      (if s in ready && isWanted(candidate) then [candidate] else []) + Wanted(text, spans[1..], ready, isWanted)
  }

  function SourceBytes(text: string, isPipeline: string -> bool, isWanted: string -> bool): Result<string, SourceError> {
    match ObjectSpans(text)
    case Err(_) => Err(BadText)
    case Ok(spans) =>
      ScannedFit(text);
      match ReadyWorkElements(text, spans, isPipeline)
      case Err(_) => Err(BadText)
      case Ok(ready) =>
        var matches := Wanted(text, spans, ready, isWanted);
        if |matches| != 1 then Err(Ambiguous) else Ok(matches[0])
  }

  lemma WantedEnds(text: string, spans: seq<Span>, ready: seq<Span>, isWanted: string -> bool)
    requires Fitting(text, spans)
    ensures Wanted(text, spans[0..], ready, isWanted) == Wanted(text, spans, ready, isWanted)
    ensures Wanted(text, spans[|spans|..], ready, isWanted) == []
  {
    assert spans[0..] == spans;
  }

  lemma WantedStep(text: string, spans: seq<Span>, i: nat, ready: seq<Span>, isWanted: string -> bool)
    requires i < |spans| && Fitting(text, spans)
    ensures
      var candidate := text[spans[i].start..spans[i].end];
      Wanted(text, spans[i..], ready, isWanted)
        == (if spans[i] in ready && isWanted(candidate) then [candidate] else [])
           + Wanted(text, spans[i + 1..], ready, isWanted)
  {
    assert spans[i..][0] == spans[i] && spans[i..][1..] == spans[i + 1..];
  }

  // ---- every scanned text: spans fit, never cross, and come innermost first ----

  predicate Apart(p: nat, s: Span) { p < s.start || s.end <= p }

  predicate Laminar(a: Span, b: Span) { a.end <= b.start || (b.start < a.start && a.end < b.end) }

  ghost predicate Tidy(s: Scan) {
    && (forall i :: 0 <= i < |s.stack| ==> s.stack[i] < s.pos)
    && (forall i, j :: 0 <= i < j < |s.stack| ==> s.stack[i] < s.stack[j])
    && (forall i :: 0 <= i < |s.spans| ==> s.spans[i].start < s.spans[i].end <= s.pos)
    && (forall i, j :: 0 <= i < |s.stack| && 0 <= j < |s.spans| ==> Apart(s.stack[i], s.spans[j]))
    && (forall i, j :: 0 <= i < j < |s.spans| ==> Laminar(s.spans[i], s.spans[j]))
  }

  lemma TidyStep(s: Scan, c: char)
    requires Tidy(s)
    ensures ScanChar(s, c).Some? ==> Tidy(ScanChar(s, c).value)
  {
    hide Tidy;
    var n := ScanChar(s, c);
    if n.Some? {
      TidyMove(s, n.value.inString, n.value.escape);
      TidyPush(s);
      if s.stack != [] {
        TidyPop(s);
      }
    }
  }

  lemma TidyMove(s: Scan, inString: bool, escape: bool)
    requires Tidy(s)
    ensures Tidy(s.(pos := s.pos + 1, inString := inString, escape := escape))
  {}

  lemma TidyPush(s: Scan)
    requires Tidy(s)
    ensures Tidy(s.(pos := s.pos + 1, stack := s.stack + [s.pos]))
  {}

  lemma TidyPop(s: Scan)
    requires Tidy(s) && s.stack != []
    ensures
      var top := |s.stack| - 1;
      Tidy(s.(pos := s.pos + 1, stack := s.stack[..top], spans := s.spans + [Span(s.stack[top], s.pos + 1)]))
  {
    var top := |s.stack| - 1;
    var new' := Span(s.stack[top], s.pos + 1);
    forall j | 0 <= j < |s.spans| ensures Laminar(s.spans[j], new') {
      assert Apart(s.stack[top], s.spans[j]);
    }
    forall i | 0 <= i < top ensures Apart(s.stack[i], new') {
      assert s.stack[i] < s.stack[top];
    }
  }

  lemma {:induction false} TidyText(s: Scan, text: string)
    requires Tidy(s)
    ensures
      var r := ScanText(s, text);
      r.Some? ==> Tidy(r.value) && r.value.pos == s.pos + |text|
    decreases |text|
  {
    if text != "" {
      TidyStep(s, text[0]);
      var n := ScanChar(s, text[0]);
      if n.Some? {
        TidyText(n.value, text[1..]);
      }
    }
  }

  /** On any text at all, spans are in bounds, two spans never cross, and inner spans come first. */
  lemma ScannedFit(text: string)
    ensures
      var r := ObjectSpans(text);
      r.Ok? ==>
        && Fitting(text, r.value)
        && forall i, j :: 0 <= i < j < |r.value| ==> Laminar(r.value[i], r.value[j])
  {
    TidyText(START, text);
    var r := ObjectSpans(text);
    if r.Ok? {
      forall s | s in r.value ensures s.start <= s.end <= |text| {
        var i :| 0 <= i < |r.value| && r.value[i] == s;
      }
    }
  }

  // ---- the objects an array holds ----

  /** Outermost objects of a value; arrays are looked through, objects are not. */
  function TopObjects(v: Json, at: nat): seq<Span> {
    match v
    case Scalar(_) => []
    case Str(_) => []
    case Obj(_, _) => [Extent(v, at)]
    case Arr(_, elements) => TopElements(elements, at + 1)
  }

  function TopElements(es: Elements, at: nat): seq<Span> {
    if es.NoElement? then [] else TopObjects(es.value, at + |es.before|) + TopElements(es.rest, NextElement(es, at))
  }

  ghost predicate Covered(spans: seq<Span>, s: Span) {
    exists o :: o in spans && o != s && Encloses(o, s)
  }

  lemma {:induction false} TopIffUncovered(v: Json, at: nat, s: Span)
    requires s in ObjectExtents(v, at)
    ensures s in TopObjects(v, at) <==> !Covered(ObjectExtents(v, at), s)
    decreases v
  {
    match v
    case Obj(_, members) =>
      forall o | o in ObjectExtents(v, at) ensures at <= o.start < o.end <= at + |Print(v)| {
        ExtentBounds(v, at, o);
      }
      if s != Extent(v, at) {
        MemberBounds(members, at + 1, s);
        assert Extent(v, at) in ObjectExtents(v, at) && Encloses(Extent(v, at), s);
      }
    case Arr(_, elements) => TopElementsIffUncovered(elements, at + 1, s);
  }

  lemma {:induction false} TopElementsIffUncovered(es: Elements, at: nat, s: Span)
    requires s in ElementExtents(es, at)
    ensures s in TopElements(es, at) <==> !Covered(ElementExtents(es, at), s)
    decreases es
  {
    var valueAt := at + |es.before|;
    var next := NextElement(es, at);
    var here := ObjectExtents(es.value, valueAt);
    var later := ElementExtents(es.rest, next);
    forall o | o in here ensures valueAt <= o.start < o.end < next {
      ExtentBounds(es.value, valueAt, o);
    }
    forall o | o in later ensures next <= o.start < o.end {
      ElementBounds(es.rest, next, o);
    }
    forall o | o in TopObjects(es.value, valueAt) ensures o in here {
      TopAreExtents(es.value, valueAt, o);
    }
    forall o | o in TopElements(es.rest, next) ensures o in later {
      TopElementsAreExtents(es.rest, next, o);
    }
    assert forall o :: o in ElementExtents(es, at) <==> o in here || o in later;
    if s in here {
      TopIffUncovered(es.value, valueAt, s);
      CoverStays(here, later, s);
    } else {
      TopElementsIffUncovered(es.rest, next, s);
      CoverStays(later, here, s);
    }
  }

  lemma CoverStays(mine: seq<Span>, others: seq<Span>, s: Span)
    requires forall o :: o in others ==> !Encloses(o, s)
    ensures forall all :: (forall o :: o in all <==> o in mine || o in others) ==> (Covered(all, s) <==> Covered(mine, s))
  {}

  lemma {:induction false} TopAreExtents(v: Json, at: nat, s: Span)
    requires s in TopObjects(v, at)
    ensures s in ObjectExtents(v, at)
    decreases v
  {
    if v.Arr? {
      TopElementsAreExtents(v.elements, at + 1, s);
    }
  }

  lemma {:induction false} TopElementsAreExtents(es: Elements, at: nat, s: Span)
    requires s in TopElements(es, at)
    ensures s in ElementExtents(es, at)
    decreases es
  {
    if s in TopObjects(es.value, at + |es.before|) {
      TopAreExtents(es.value, at + |es.before|, s);
    } else {
      TopElementsAreExtents(es.rest, NextElement(es, at), s);
    }
  }

  lemma {:induction false} ExtentsRising(v: Json, at: nat)
    ensures Rising(ObjectExtents(v, at)) && Rising(TopObjects(v, at))
    decreases v
  {
    match v
    case Scalar(_) =>
    case Str(_) =>
    case Obj(_, members) =>
      MemberExtentsRising(members, at + 1);
      forall s | s in MemberExtents(members, at + 1) ensures s.end <= at + |Print(v)| - 1 {
        MemberBounds(members, at + 1, s);
      }
      RisingConcat(MemberExtents(members, at + 1), [Extent(v, at)], at + |Print(v)| - 1);
    case Arr(_, elements) =>
      ElementExtentsRising(elements, at + 1);
  }

  lemma {:induction false} MemberExtentsRising(ms: Members, at: nat)
    ensures Rising(MemberExtents(ms, at))
    decreases ms
  {
    if ms.Member? {
      var valueAt := at + |KeyPart(ms)|;
      var next := NextMember(ms, at);
      ExtentsRising(ms.value, valueAt);
      MemberExtentsRising(ms.rest, next);
      hide Rising;
      forall s | s in ObjectExtents(ms.value, valueAt) ensures s.end <= valueAt + |Print(ms.value)| {
        ExtentBounds(ms.value, valueAt, s);
      }
      forall s | s in MemberExtents(ms.rest, next) ensures valueAt + |Print(ms.value)| < s.end {
        MemberBounds(ms.rest, next, s);
      }
      RisingConcat(ObjectExtents(ms.value, valueAt), MemberExtents(ms.rest, next), valueAt + |Print(ms.value)|);
    }
  }

  lemma {:induction false} ElementExtentsRising(es: Elements, at: nat)
    ensures Rising(ElementExtents(es, at)) && Rising(TopElements(es, at))
    decreases es
  {
    if es.Element? {
      var valueAt := at + |es.before|;
      var next := NextElement(es, at);
      var mid := valueAt + |Print(es.value)|;
      ExtentsRising(es.value, valueAt);
      ElementExtentsRising(es.rest, next);
      hide Rising;
      forall s | s in ObjectExtents(es.value, valueAt) ensures s.end <= mid {
        ExtentBounds(es.value, valueAt, s);
      }
      forall s | s in ElementExtents(es.rest, next) ensures mid < s.end {
        ElementBounds(es.rest, next, s);
      }
      forall s | s in TopObjects(es.value, valueAt) ensures s.end <= mid {
        TopAreExtents(es.value, valueAt, s);
      }
      forall s | s in TopElements(es.rest, next) ensures mid < s.end {
        TopElementsAreExtents(es.rest, next, s);
      }
      RisingConcat(ObjectExtents(es.value, valueAt), ElementExtents(es.rest, next), mid);
      RisingConcat(TopObjects(es.value, valueAt), TopElements(es.rest, next), mid);
    }
  }

  lemma InsideArray(v: Json, at: nat, a: Json, pos: nat)
    requires a.Arr? && Occurs(v, at, a, pos)
    ensures Keep(ObjectExtents(v, at), s => Encloses(Extent(a, pos), s)) == ElementExtents(a.elements, pos + 1)
  {
    var inside := s => Encloses(Extent(a, pos), s);
    var inner := Keep(ObjectExtents(v, at), inside);
    var own := ElementExtents(a.elements, pos + 1);
    forall s ensures s in inner <==> s in own {
      if s in inner {
        InnerSpan(v, at, a, pos, s);
      }
      if s in own {
        ElementBounds(a.elements, pos + 1, s);
        OccursExtents(v, at, a, pos, s);
      }
    }
    ExtentsRising(v, at);
    ElementExtentsRising(a.elements, pos + 1);
    KeepRising(ObjectExtents(v, at), inside);
    RisingUnique(inner, own);
  }

  lemma UncoveredAreTop(es: Elements, at: nat, own: seq<Span>)
    requires own == ElementExtents(es, at)
    ensures Keep(own, s => !exists o :: o in own && o != s && Encloses(o, s)) == TopElements(es, at)
  {
    ElementExtentsRising(es, at);
    hide ElementExtents, TopElements;
    var r := Keep(own, s => !exists o :: o in own && o != s && Encloses(o, s));
    KeepRising(own, s => !exists o :: o in own && o != s && Encloses(o, s));
    forall s ensures s in r <==> s in TopElements(es, at) {
      if s in own {
        TopElementsIffUncovered(es, at, s);
      }
      if s in TopElements(es, at) {
        TopElementsAreExtents(es, at, s);
      }
    }
    RisingUnique(r, TopElements(es, at));
  }

  /** The direct object elements of an array are its outermost objects, in order. */
  lemma DirectElementsAreTop(v: Json, at: nat, a: Json, pos: nat)
    requires a.Arr? && Occurs(v, at, a, pos)
    ensures DirectObjectElements(ObjectExtents(v, at), Extent(a, pos)) == TopObjects(a, pos)
  {
    InsideArray(v, at, a, pos);
    hide ElementExtents, ObjectExtents, TopElements, Occurs, Keep, Encloses;
    UncoveredAreTop(a.elements, pos + 1, ElementExtents(a.elements, pos + 1));
  }

  lemma {:induction false} OccursExtents(v: Json, at: nat, w: Json, pos: nat, s: Span)
    requires Occurs(v, at, w, pos) && s in ObjectExtents(w, pos)
    ensures s in ObjectExtents(v, at)
    decreases v
  {
    if v == w && at == pos {
    } else if v.Obj? {
      OccursMemberExtents(v.members, at + 1, w, pos, s);
    } else {
      OccursElementExtents(v.elements, at + 1, w, pos, s);
    }
  }

  lemma {:induction false} OccursMemberExtents(ms: Members, at: nat, w: Json, pos: nat, s: Span)
    requires OccursInMembers(ms, at, w, pos) && s in ObjectExtents(w, pos)
    ensures s in MemberExtents(ms, at)
    decreases ms
  {
    if Occurs(ms.value, at + |KeyPart(ms)|, w, pos) {
      OccursExtents(ms.value, at + |KeyPart(ms)|, w, pos, s);
    } else {
      OccursMemberExtents(ms.rest, NextMember(ms, at), w, pos, s);
    }
  }

  lemma {:induction false} OccursElementExtents(es: Elements, at: nat, w: Json, pos: nat, s: Span)
    requires OccursInElements(es, at, w, pos) && s in ObjectExtents(w, pos)
    ensures s in ElementExtents(es, at)
    decreases es
  {
    if Occurs(es.value, at + |es.before|, w, pos) {
      OccursExtents(es.value, at + |es.before|, w, pos, s);
    } else {
      OccursElementExtents(es.rest, NextElement(es, at), w, pos, s);
    }
  }

  // ---- the extraction read off the tree ----

  /** A value and the position it is printed at. */
  datatype Place = Place(v: Json, at: nat)

  function OwnPlaces(ms: Members, key: string, at: nat): seq<Place> {
    if ms.NoMember? then []
    else
      (if Named(ms, key) then [Place(ms.value, at + |KeyPart(ms)|)] else [])
      + OwnPlaces(ms.rest, key, NextMember(ms, at))
  }

  function TopPlaces(v: Json, at: nat): seq<Place> {
    match v
    case Scalar(_) => []
    case Str(_) => []
    case Obj(_, _) => [Place(v, at)]
    case Arr(_, elements) => TopPlacesIn(elements, at + 1)
  }

  function TopPlacesIn(es: Elements, at: nat): seq<Place> {
    if es.NoElement? then [] else TopPlaces(es.value, at + |es.before|) + TopPlacesIn(es.rest, NextElement(es, at))
  }

  function Passing(places: seq<Place>, test: string -> bool): (r: seq<Place>)
    ensures forall p :: p in r ==> p in places && test(Print(p.v))
  {
    if places == [] then []
    else (if test(Print(places[0].v)) then [places[0]] else []) + Passing(places[1..], test)
  }

  /** The one object of the one pipelines array that passes the test. */
  function TreePipeline(v: Json, at: nat, isPipeline: string -> bool): Option<Place>
    requires v.Obj?
  {
    var pipelines := OwnPlaces(v.members, "pipelines", at + 1);
    if |pipelines| != 1 then None
    else
      var chosen := Passing(TopPlaces(pipelines[0].v, pipelines[0].at), isPipeline);
      if |chosen| == 1 then Some(chosen[0]) else None
  }

  /** The objects of that pipeline's one ready_work array. */
  function ReadyPlaces(v: Json, at: nat, isPipeline: string -> bool): seq<Place>
    requires v.Obj?
  {
    match TreePipeline(v, at, isPipeline)
    case None => []
    case Some(p) =>
      if !p.v.Obj? then []
      else
        var ready := OwnPlaces(p.v.members, "ready_work", p.at + 1);
        if |ready| == 1 then TopPlaces(ready[0].v, ready[0].at) else []
  }

  function TreeSource(v: Json, at: nat, isPipeline: string -> bool, isWanted: string -> bool): Result<string, SourceError>
    requires v.Obj?
  {
    var items := Passing(ReadyPlaces(v, at, isPipeline), isWanted);
    if |items| != 1 then Err(Ambiguous) else Ok(Print(items[0].v))
  }

  function Extents(places: seq<Place>): seq<Span> {
    if places == [] then [] else [Extent(places[0].v, places[0].at)] + Extents(places[1..])
  }

  lemma {:induction false} ExtentsAt(places: seq<Place>)
    ensures |Extents(places)| == |places|
    ensures forall i :: 0 <= i < |places| ==> Extents(places)[i] == Extent(places[i].v, places[i].at)
    decreases |places|
  {
    if places != [] {
      ExtentsAt(places[1..]);
    }
  }

  lemma ExtentsConcat(a: seq<Place>, b: seq<Place>)
    ensures Extents(a + b) == Extents(a) + Extents(b)
  {
    ExtentsAt(a);
    ExtentsAt(b);
    ExtentsAt(a + b);
  }

  lemma {:induction false} OwnArePlaced(v: Json, at: nat, ms: Members, key: string, mAt: nat)
    ensures OwnArrays(ms, key, mAt) == Extents(OwnPlaces(ms, key, mAt))
    ensures forall p :: p in OwnPlaces(ms, key, mAt) ==> p.v.Arr? && OccursInMembers(ms, mAt, p.v, p.at)
    decreases ms
  {
    if ms.Member? {
      OwnArePlaced(v, at, ms.rest, key, NextMember(ms, mAt));
      ExtentsConcat(if Named(ms, key) then [Place(ms.value, mAt + |KeyPart(ms)|)] else [], OwnPlaces(ms.rest, key, NextMember(ms, mAt)));
    }
  }

  lemma {:induction false} TopArePlaced(v: Json, at: nat)
    ensures TopObjects(v, at) == Extents(TopPlaces(v, at))
    ensures forall p :: p in TopPlaces(v, at) ==> p.v.Obj? && forall key :: Visible(v, at, p.v, p.at, key)
    decreases v
  {
    if v.Arr? {
      TopInArePlaced(v.elements, at + 1);
    }
  }

  lemma {:induction false} TopInArePlaced(es: Elements, at: nat)
    ensures TopElements(es, at) == Extents(TopPlacesIn(es, at))
    ensures forall p :: p in TopPlacesIn(es, at) ==> p.v.Obj? && forall key :: VisibleInElements(es, at, p.v, p.at, key)
    decreases es
  {
    if es.Element? {
      TopArePlaced(es.value, at + |es.before|);
      TopInArePlaced(es.rest, NextElement(es, at));
      ExtentsConcat(TopPlaces(es.value, at + |es.before|), TopPlacesIn(es.rest, NextElement(es, at)));
    }
  }

  /** What is visible in an owned array stays visible for every other name. */
  lemma {:induction false} VisibleThroughOwn(ms: Members, at: nat, key: string, a: Place, w: Json, pos: nat, other: string)
    requires a in OwnPlaces(ms, key, at) && Visible(a.v, a.at, w, pos, other) && key != other
    ensures VisibleInMembers(ms, at, w, pos, other)
    decreases ms
  {
    if a in OwnPlaces(ms.rest, key, NextMember(ms, at)) {
      VisibleThroughOwn(ms.rest, NextMember(ms, at), key, a, w, pos, other);
    }
  }

  lemma {:induction false} OccursTransitive(v: Json, at: nat, w: Json, pos: nat, x: Json, xAt: nat)
    requires Occurs(v, at, w, pos) && Occurs(w, pos, x, xAt)
    ensures Occurs(v, at, x, xAt)
    decreases v
  {
    if v == w && at == pos {
    } else if v.Obj? {
      OccursMembersTransitive(v.members, at + 1, w, pos, x, xAt);
    } else {
      OccursElementsTransitive(v.elements, at + 1, w, pos, x, xAt);
    }
  }

  lemma {:induction false} OccursMembersTransitive(ms: Members, at: nat, w: Json, pos: nat, x: Json, xAt: nat)
    requires OccursInMembers(ms, at, w, pos) && Occurs(w, pos, x, xAt)
    ensures OccursInMembers(ms, at, x, xAt)
    decreases ms
  {
    if Occurs(ms.value, at + |KeyPart(ms)|, w, pos) {
      OccursTransitive(ms.value, at + |KeyPart(ms)|, w, pos, x, xAt);
    } else {
      OccursMembersTransitive(ms.rest, NextMember(ms, at), w, pos, x, xAt);
    }
  }

  lemma {:induction false} OccursElementsTransitive(es: Elements, at: nat, w: Json, pos: nat, x: Json, xAt: nat)
    requires OccursInElements(es, at, w, pos) && Occurs(w, pos, x, xAt)
    ensures OccursInElements(es, at, x, xAt)
    decreases es
  {
    if Occurs(es.value, at + |es.before|, w, pos) {
      OccursTransitive(es.value, at + |es.before|, w, pos, x, xAt);
    } else {
      OccursElementsTransitive(es.rest, NextElement(es, at), w, pos, x, xAt);
    }
  }

  /** The text at an occurrence is the printed value. */
  lemma WrappedHere(text: string, at: nat, opener: char, body: string, closer: char)
    requires Here(text, at, [opener] + body + [closer])
    ensures Here(text, at + 1, body)
  {
    assert [opener] + body + [closer] == [opener] + (body + [closer]);
    hide Here;
    HereSplit(text, at, [opener], body + [closer]);
    HereSplit(text, at + 1, body, [closer]);
  }

  lemma {:induction false} OccursHere(text: string, v: Json, at: nat, w: Json, pos: nat)
    requires Here(text, at, Print(v)) && Occurs(v, at, w, pos)
    ensures Here(text, pos, Print(w))
    decreases v
  {
    if v == w && at == pos {
    } else if v.Obj? {
      OccursInMembersBounds(v.members, at + 1, w, pos);
      assert v.members.Member? && Print(v) == "{" + PrintMembers(v.members) + "}";
      hide Here, Print, Occurs;
      WrappedHere(text, at, '{', PrintMembers(v.members), '}');
      OccursHereInMembers(text, v.members, at + 1, w, pos);
    } else {
      assert v.elements.Element? && Print(v) == "[" + PrintElements(v.elements) + "]";
      hide Here, Print, Occurs;
      WrappedHere(text, at, '[', PrintElements(v.elements), ']');
      OccursHereInElements(text, v.elements, at + 1, w, pos);
    }
  }

  lemma {:induction false} OccursHereInMembers(text: string, ms: Members, at: nat, w: Json, pos: nat)
    requires Here(text, at, PrintMembers(ms)) && OccursInMembers(ms, at, w, pos)
    ensures Here(text, pos, Print(w))
    decreases ms
  {
    hide Here, KeyPart;
    HereFour(text, at, KeyPart(ms), Print(ms.value), ms.after, MembersTail(ms.rest));
    if Occurs(ms.value, at + |KeyPart(ms)|, w, pos) {
      OccursHere(text, ms.value, at + |KeyPart(ms)|, w, pos);
    } else {
      HereSplit(text, NextMember(ms, at) - 1, ",", PrintMembers(ms.rest));
      OccursHereInMembers(text, ms.rest, NextMember(ms, at), w, pos);
    }
  }

  lemma {:induction false} OccursHereInElements(text: string, es: Elements, at: nat, w: Json, pos: nat)
    requires Here(text, at, PrintElements(es)) && OccursInElements(es, at, w, pos)
    ensures Here(text, pos, Print(w))
    decreases es
  {
    hide Here;
    HereFour(text, at, es.before, Print(es.value), es.after, ElementsTail(es.rest));
    if Occurs(es.value, at + |es.before|, w, pos) {
      OccursHere(text, es.value, at + |es.before|, w, pos);
    } else {
      HereSplit(text, NextElement(es, at) - 1, ",", PrintElements(es.rest));
      OccursHereInElements(text, es.rest, NextElement(es, at), w, pos);
    }
  }

  ghost predicate Printed(text: string, places: seq<Place>) {
    forall p :: p in places ==> Here(text, p.at, Print(p.v))
  }

  lemma {:induction false} KeepAgrees(places: seq<Place>, keep: Span -> bool, test: string -> bool)
    requires forall p :: p in places ==> keep(Extent(p.v, p.at)) == test(Print(p.v))
    ensures Keep(Extents(places), keep) == Extents(Passing(places, test))
    decreases |places|
  {
    if places != [] {
      var p := places[0];
      assert p in places;
      KeepAgrees(places[1..], keep, test);
      assert Extents(places)[1..] == Extents(places[1..]);
      hide Print, Extent;
      if test(Print(p.v)) {
        assert Passing(places, test)[1..] == Passing(places[1..], test);
      } else {
        assert Passing(places, test) == Passing(places[1..], test);
      }
    }
  }

  lemma KeepPassing(text: string, places: seq<Place>, test: string -> bool)
    requires Printed(text, places)
    ensures Keep(Extents(places), s => Slice(text, s, test)) == Extents(Passing(places, test))
  {
    var keep := s => Slice(text, s, test);
    forall p | p in places ensures keep(Extent(p.v, p.at)) == test(Print(p.v)) {
      HereSlice(text, p);
    }
    KeepAgrees(places, keep, test);
  }

  /** Looking for wanted spans among all objects is looking among the ready ones, in order. */
  lemma {:induction false} WantedAmongReady(text: string, spans: seq<Span>, ready: seq<Span>, isWanted: string -> bool)
    requires Fitting(text, spans)
    ensures
      var kept := Keep(spans, s => s in ready);
      Wanted(text, spans, ready, isWanted) == Wanted(text, kept, kept, isWanted)
    decreases |spans|
  {
    var mine := s => s in ready;
    var kept := Keep(spans, mine);
    if spans != [] {
      WantedAmongReady(text, spans[1..], ready, isWanted);
      var rest := Keep(spans[1..], mine);
      WantedIgnores(text, rest, rest, kept, isWanted);
      if spans[0] in ready {
        assert kept[0] == spans[0] && kept[1..] == rest;
      } else {
        assert kept == rest;
      }
    }
  }

  lemma {:induction false} WantedIgnores(text: string, spans: seq<Span>, a: seq<Span>, b: seq<Span>, isWanted: string -> bool)
    requires Fitting(text, spans) && forall s :: s in spans ==> s in a && s in b
    ensures Wanted(text, spans, a, isWanted) == Wanted(text, spans, b, isWanted)
    decreases |spans|
  {
    if spans != [] {
      WantedIgnores(text, spans[1..], a, b, isWanted);
    }
  }

  lemma HereSlice(text: string, p: Place)
    requires Here(text, p.at, Print(p.v))
    ensures p.at + |Print(p.v)| <= |text| && text[p.at..p.at + |Print(p.v)|] == Print(p.v)
  {}

  function Prints(places: seq<Place>): seq<string> {
    if places == [] then [] else [Print(places[0].v)] + Prints(places[1..])
  }

  lemma PassingFirst(places: seq<Place>, test: string -> bool)
    requires places != []
    ensures Prints(Passing(places, test)) == (if test(Print(places[0].v)) then [Print(places[0].v)] else []) + Prints(Passing(places[1..], test))
  {
    hide Print;
    var rest := Passing(places[1..], test);
    if test(Print(places[0].v)) {
      assert Passing(places, test) == [places[0]] + rest && ([places[0]] + rest)[1..] == rest;
    } else {
      assert Passing(places, test) == rest;
    }
  }

  lemma WantedFirst(text: string, spans: seq<Span>, ready: seq<Span>, isWanted: string -> bool)
    requires spans != [] && Fitting(text, spans) && spans[0] in ready
    ensures Fitting(text, spans[1..]) && spans[0].start <= spans[0].end <= |text|
    ensures
      var candidate := text[spans[0].start..spans[0].end];
      Wanted(text, spans, ready, isWanted) == (if isWanted(candidate) then [candidate] else []) + Wanted(text, spans[1..], ready, isWanted)
  {
    assert spans[0] in spans;
  }

  lemma {:induction false} WantedPassing(text: string, places: seq<Place>, ready: seq<Span>, isWanted: string -> bool)
    requires Printed(text, places) && Fitting(text, Extents(places))
    requires forall s :: s in Extents(places) ==> s in ready
    ensures Wanted(text, Extents(places), ready, isWanted) == Prints(Passing(places, isWanted))
    decreases |places|
  {
    if places != [] {
      var p := places[0];
      var spans := Extents(places);
      assert p in places && spans[0] in spans && spans[1..] == Extents(places[1..]);
      assert spans[0] == Span(p.at, p.at + |Print(p.v)|);
      HereSlice(text, p);
      assert Printed(text, places[1..]);
      hide Here, Print, Printed, Prints, Passing, Extents, Wanted;
      PassingFirst(places, isWanted);
      WantedFirst(text, spans, ready, isWanted);
      hide Fitting;
      WantedPassing(text, places[1..], ready, isWanted);
    }
  }

  predicate Document(text: string, margin: string, v: Json, trailer: string) {
    Blank(margin) && Blank(trailer) && Valid(v) && v.Obj? && text == margin + Print(v) + trailer
  }

  lemma TopPrinted(text: string, margin: string, v: Json, trailer: string, a: Place)
    requires Document(text, margin, v, trailer) && a.v.Arr? && Occurs(v, |margin|, a.v, a.at)
    ensures Printed(text, TopPlaces(a.v, a.at))
    ensures forall p :: p in TopPlaces(a.v, a.at) ==> p.v.Obj? && Occurs(v, |margin|, p.v, p.at)
    ensures DirectObjectElements(ObjectExtents(v, |margin|), Extent(a.v, a.at)) == Extents(TopPlaces(a.v, a.at))
  {
    assert Here(text, |margin|, Print(v));
    DirectElementsAreTop(v, |margin|, a.v, a.at);
    TopArePlaced(a.v, a.at);
    forall p | p in TopPlaces(a.v, a.at)
      ensures Occurs(v, |margin|, p.v, p.at) && Here(text, p.at, Print(p.v))
    {
      VisibleOccurs(a.v, a.at, p.v, p.at, "");
      OccursTransitive(v, |margin|, a.v, a.at, p.v, p.at);
      OccursHere(text, v, |margin|, p.v, p.at);
    }
  }

  /** One array of this name: the place it occupies, inside the object that owns it. */
  lemma SoleArray(v: Json, at: nat, o: Place, key: string)
    requires o.v.Obj? && Occurs(v, at, o.v, o.at)
    ensures
      var places := OwnPlaces(o.v.members, key, o.at + 1);
      && OwnArrays(o.v.members, key, o.at + 1) == Extents(places)
      && (|places| == 1 ==> places[0].v.Arr? && Occurs(v, at, places[0].v, places[0].at))
  {
    OwnArePlaced(v, at, o.v.members, key, o.at + 1);
    var places := OwnPlaces(o.v.members, key, o.at + 1);
    if |places| == 1 {
      assert places[0] in places;
      assert Occurs(o.v, o.at, places[0].v, places[0].at);
      OccursTransitive(v, at, o.v, o.at, places[0].v, places[0].at);
    }
  }

  /** The objects of an array place that pass the test, as spans and as places. */
  lemma ChosenIn(text: string, margin: string, v: Json, trailer: string, a: Place, test: string -> bool)
    requires Document(text, margin, v, trailer) && a.v.Arr? && Occurs(v, |margin|, a.v, a.at)
    ensures Keep(DirectObjectElements(ObjectExtents(v, |margin|), Extent(a.v, a.at)), s => Slice(text, s, test))
         == Extents(Passing(TopPlaces(a.v, a.at), test))
  {
    TopPrinted(text, margin, v, trailer, a);
    KeepPassing(text, TopPlaces(a.v, a.at), test);
  }

  lemma ChosenVisible(v: Json, at: nat, a: Place, p: Place)
    requires v.Obj? && a in OwnPlaces(v.members, "pipelines", at + 1) && p in TopPlaces(a.v, a.at)
    ensures p.v.Obj? && Visible(v, at, p.v, p.at, "ready_work")
  {
    TopArePlaced(a.v, a.at);
    VisibleThroughOwn(v.members, at + 1, "pipelines", a, p.v, p.at, "ready_work");
  }

  lemma DocumentParts(text: string, margin: string, v: Json, trailer: string)
    requires Document(text, margin, v, trailer)
    ensures Blank(margin) && Blank(trailer) && Valid(v) && text == margin + Print(v) + trailer
  {}

  lemma PipelineFromArrays(text: string, spans: seq<Span>, isPipeline: string -> bool, arrays: seq<Span>)
    requires Fitting(text, spans) && spans != []
    requires DirectNamedArrayRanges(text, spans, spans[|spans| - 1], "pipelines") == Ok(arrays)
    ensures |arrays| != 1 ==> UniquePipeline(text, spans, isPipeline) == Ok(None)
    ensures |arrays| == 1 ==>
      var matching := Keep(DirectObjectElements(spans, arrays[0]), s => Slice(text, s, isPipeline));
      UniquePipeline(text, spans, isPipeline) == Ok(if |matching| == 1 then Some(matching[0]) else None)
  {
    hide Keep, DirectObjectElements, DirectNamedArrayRanges, Fitting;
  }

  /** The arrays named `key` of an object in the document, as spans and as places. */
  lemma NamedArraysOf(text: string, margin: string, v: Json, trailer: string, o: Place, key: string)
    requires Document(text, margin, v, trailer)
    requires o.v.Obj? && Visible(v, |margin|, o.v, o.at, key)
    ensures
      var places := OwnPlaces(o.v.members, key, o.at + 1);
      && DirectNamedArrayRanges(text, ObjectExtents(v, |margin|), Extent(o.v, o.at), key) == Ok(Extents(places))
      && |Extents(places)| == |places|
      && (|places| == 1 ==>
        places[0].v.Arr? && Occurs(v, |margin|, places[0].v, places[0].at) && Extents(places)[0] == Extent(places[0].v, places[0].at))
  {
    var places := OwnPlaces(o.v.members, key, o.at + 1);
    VisibleOccurs(v, |margin|, o.v, o.at, key);
    hide *;
    NamedRangesOf(text, margin, v, trailer, o, key);
    SoleArray(v, |margin|, o, key);
    ExtentsAt(places);
  }

  lemma NamedRangesOf(text: string, margin: string, v: Json, trailer: string, o: Place, key: string)
    requires Document(text, margin, v, trailer) && o.v.Obj? && Visible(v, |margin|, o.v, o.at, key)
    ensures DirectNamedArrayRanges(text, ObjectExtents(v, |margin|), Extent(o.v, o.at), key) == Ok(OwnArrays(o.v.members, key, o.at + 1))
  {
    hide *;
    DocumentParts(text, margin, v, trailer);
    DirectArraysAreOwn(margin, v, trailer, o.v, o.at, key);
  }

  lemma WholeIsVisible(v: Json, at: nat, key: string)
    requires v.Obj?
    ensures Visible(v, at, v, at, key)
    ensures var spans := ObjectExtents(v, at); spans != [] && spans[|spans| - 1] == Extent(v, at)
  {}

  lemma PipelineOfDocument(text: string, margin: string, v: Json, trailer: string, isPipeline: string -> bool)
    requires Document(text, margin, v, trailer) && Fitting(text, ObjectExtents(v, |margin|))
    ensures
      var p := TreePipeline(v, |margin|, isPipeline);
      && UniquePipeline(text, ObjectExtents(v, |margin|), isPipeline)
           == Ok(if p.Some? then Some(Extent(p.value.v, p.value.at)) else None)
      && (p.Some? ==> p.value.v.Obj? && Visible(v, |margin|, p.value.v, p.value.at, "ready_work"))
  {
    var at, spans := |margin|, ObjectExtents(v, |margin|);
    WholeIsVisible(v, at, "pipelines");
    hide UniquePipeline, ObjectExtents, Occurs, Visible, Print, DirectObjectElements, DirectNamedArrayRanges, TopPlaces, OwnPlaces, Keep, Passing, Fitting, Slice, Valid;
    NamedArraysOf(text, margin, v, trailer, Place(v, at), "pipelines");
    var arrays := OwnPlaces(v.members, "pipelines", at + 1);
    PipelineFromArrays(text, spans, isPipeline, Extents(arrays));
    if |arrays| == 1 {
      var a := arrays[0];
      assert a in arrays;
      ChosenIn(text, margin, v, trailer, a, isPipeline);
      var chosen := Passing(TopPlaces(a.v, a.at), isPipeline);
      ExtentsAt(chosen);
      if |chosen| == 1 {
        assert chosen[0] in chosen;
        PassingAmong(TopPlaces(a.v, a.at), isPipeline);
        ChosenVisible(v, at, a, chosen[0]);
      }
    }
  }

  lemma PassingAmong(places: seq<Place>, test: string -> bool)
    ensures forall p :: p in Passing(places, test) ==> p in places
  {}

  lemma ReadyOfDocument(text: string, margin: string, v: Json, trailer: string, isPipeline: string -> bool)
    requires Document(text, margin, v, trailer) && Fitting(text, ObjectExtents(v, |margin|))
    ensures
      var places := ReadyPlaces(v, |margin|, isPipeline);
      && ReadyWorkElements(text, ObjectExtents(v, |margin|), isPipeline) == Ok(Extents(places))
      && Printed(text, places)
      && (forall p :: p in places ==> p.v.Obj? && Occurs(v, |margin|, p.v, p.at))
      && Rising(Extents(places))
  {
    hide UniquePipeline, TreePipeline, Occurs, Visible, Here, Print, DirectObjectElements, DirectNamedArrayRanges, TopPlaces, OwnPlaces, ObjectExtents, TopObjects, Fitting, Valid;
    var at := |margin|;
    PipelineOfDocument(text, margin, v, trailer, isPipeline);
    var p := TreePipeline(v, at, isPipeline);
    if p.Some? {
      var o := p.value;
      NamedArraysOf(text, margin, v, trailer, o, "ready_work");
      var arrays := OwnPlaces(o.v.members, "ready_work", o.at + 1);
      if |arrays| == 1 {
        TopPrinted(text, margin, v, trailer, arrays[0]);
        RisingPlaces(arrays[0].v, arrays[0].at);
      }
    }
  }

  lemma RisingPlaces(v: Json, at: nat)
    ensures Rising(Extents(TopPlaces(v, at)))
  {
    TopArePlaced(v, at);
    ExtentsRising(v, at);
  }

  /**
   On a printed snapshot the extraction returns exactly the printed text of the single wanted
   object of the single `ready_work` array of the single matching pipeline, and fails otherwise.
   */
  lemma SourceBytesAreTheItem(text: string, margin: string, v: Json, trailer: string,
                              isPipeline: string -> bool, isWanted: string -> bool)
    requires Document(text, margin, v, trailer)
    ensures SourceBytes(text, isPipeline, isWanted) == TreeSource(v, |margin|, isPipeline, isWanted)
  {
    hide ReadyWorkElements, ReadyPlaces, ObjectExtents, Occurs, Print, Wanted, Here, Passing;
    var at := |margin|;
    var spans := ObjectExtents(v, at);
    SpansOfDocument(margin, v, trailer);
    ScannedFit(text);
    ReadyOfDocument(text, margin, v, trailer, isPipeline);
    var places := ReadyPlaces(v, at, isPipeline);
    var ready := Extents(places);
    ExtentsAt(places);
    forall i | 0 <= i < |ready| ensures ready[i] in spans {
      assert places[i] in places;
      OccursBounds(v, at, places[i].v, places[i].at);
    }
    var mine := s => s in ready;
    ExtentsRising(v, at);
    KeepRising(spans, mine);
    RisingUnique(Keep(spans, mine), ready);
    WantedAmongReady(text, spans, ready, isWanted);
    WantedPassing(text, places, ready, isWanted);
    PrintsLength(Passing(places, isWanted));
  }

  lemma {:induction false} PrintsLength(places: seq<Place>)
    ensures |Prints(places)| == |places|
    ensures |places| > 0 ==> Prints(places)[0] == Print(places[0].v)
    decreases |places|
  {
    if places != [] {
      PrintsLength(places[1..]);
    }
  }
}

/** From spans back to the tree: which arrays an object owns and which objects an array holds. */
module JsonOwnership {
  import opened Collections
  import opened Outcomes
  import opened JsonText
  import opened JsonScanner
  import opened JsonArrays

  function Extent(v: Json, at: nat): Span { Span(at, at + |Print(v)|) }

  predicate Encloses(outer: Span, inner: Span) { outer.start < inner.start && inner.end <= outer.end }

  /** The array lies in `owner` and no other object of `owner` lies between them. */
  predicate ArrayIsDirect(spans: seq<Span>, owner: Span, arr: Span) {
    && Encloses(owner, arr)
    && !exists s :: s in spans && s != owner && Encloses(owner, s) && Encloses(s, arr)
  }

  function Keep(spans: seq<Span>, keep: Span -> bool): (r: seq<Span>)
    ensures forall s :: s in r <==> s in spans && keep(s)
  {
    if spans == [] then [] else (if keep(spans[0]) then [spans[0]] else []) + Keep(spans[1..], keep)
  }

  function DirectNamedArrayRanges(text: string, spans: seq<Span>, owner: Span, key: string): Result<seq<Span>, ScanError> {
    match NamedFrom(text, key, 0, Outer)
    case Err(e) => Err(e)
    case Ok(ranges) => Ok(Keep(ranges, arr => ArrayIsDirect(spans, owner, arr)))
  }

  /** Objects inside the array that no other object of the array encloses. */
  function DirectObjectElements(spans: seq<Span>, arr: Span): seq<Span> {
    var inner := Keep(spans, s => Encloses(arr, s));
    Keep(inner, s => !exists o :: o in inner && o != s && Encloses(o, s))
  }

  // ---- occurrences in the tree ----

  /** `w` is `v` or a value somewhere inside it, and is printed at `pos` when `v` is printed at `at`. */
  predicate Occurs(v: Json, at: nat, w: Json, pos: nat) {
    || (v == w && at == pos)
    || (v.Obj? && OccursInMembers(v.members, at + 1, w, pos))
    || (v.Arr? && OccursInElements(v.elements, at + 1, w, pos))
  }

  predicate OccursInMembers(ms: Members, at: nat, w: Json, pos: nat) {
    ms.Member? && (Occurs(ms.value, at + |KeyPart(ms)|, w, pos) || OccursInMembers(ms.rest, NextMember(ms, at), w, pos))
  }

  predicate OccursInElements(es: Elements, at: nat, w: Json, pos: nat) {
    es.Element? && (Occurs(es.value, at + |es.before|, w, pos) || OccursInElements(es.rest, NextElement(es, at), w, pos))
  }

  function NextMember(ms: Members, at: nat): nat
    requires ms.Member?
  {
    at + |KeyPart(ms)| + |Print(ms.value)| + |ms.after| + 1
  }

  function NextElement(es: Elements, at: nat): nat
    requires es.Element?
  {
    at + |es.before| + |Print(es.value)| + |es.after| + 1
  }

  /** Like `Occurs`, along a path that enters no array called `key`. */
  predicate Visible(v: Json, at: nat, w: Json, pos: nat, key: string) {
    || (v == w && at == pos)
    || (v.Obj? && VisibleInMembers(v.members, at + 1, w, pos, key))
    || (v.Arr? && VisibleInElements(v.elements, at + 1, w, pos, key))
  }

  predicate VisibleInMembers(ms: Members, at: nat, w: Json, pos: nat, key: string) {
    && ms.Member?
    && (|| (!Named(ms, key) && Visible(ms.value, at + |KeyPart(ms)|, w, pos, key))
        || VisibleInMembers(ms.rest, NextMember(ms, at), w, pos, key))
  }

  predicate VisibleInElements(es: Elements, at: nat, w: Json, pos: nat, key: string) {
    && es.Element?
    && (|| Visible(es.value, at + |es.before|, w, pos, key)
        || VisibleInElements(es.rest, NextElement(es, at), w, pos, key))
  }

  /** Extents of the arrays that are values of `key` in this member list itself. */
  function OwnArrays(ms: Members, key: string, at: nat): seq<Span> {
    if ms.NoMember? then []
    else
      (if Named(ms, key) then [Extent(ms.value, at + |KeyPart(ms)|)] else [])
      + OwnArrays(ms.rest, key, NextMember(ms, at))
  }

  // ---- where extents lie ----

  lemma {:induction false} ExtentBounds(v: Json, at: nat, s: Span)
    requires s in ObjectExtents(v, at)
    ensures at <= s.start < s.end <= at + |Print(v)|
    ensures s.start == at ==> s == Extent(v, at)
    decreases v
  {
    match v
    case Scalar(_) =>
    case Str(_) =>
    case Obj(_, members) =>
      if s in MemberExtents(members, at + 1) {
        MemberBounds(members, at + 1, s);
      }
    case Arr(_, elements) =>
      ElementBounds(elements, at + 1, s);
  }

  lemma {:induction false} MemberBounds(ms: Members, at: nat, s: Span)
    requires s in MemberExtents(ms, at)
    ensures ms.Member? && at <= s.start < s.end <= at + |PrintMembers(ms)|
    decreases ms
  {
    var valueAt := at + |KeyPart(ms)|;
    if s in ObjectExtents(ms.value, valueAt) {
      ExtentBounds(ms.value, valueAt, s);
    } else {
      MemberBounds(ms.rest, NextMember(ms, at), s);
    }
  }

  lemma {:induction false} ElementBounds(es: Elements, at: nat, s: Span)
    requires s in ElementExtents(es, at)
    ensures es.Element? && at <= s.start < s.end <= at + |PrintElements(es)|
    decreases es
  {
    var valueAt := at + |es.before|;
    if s in ObjectExtents(es.value, valueAt) {
      ExtentBounds(es.value, valueAt, s);
    } else {
      ElementBounds(es.rest, NextElement(es, at), s);
    }
  }

  lemma {:induction false} OccursBounds(v: Json, at: nat, w: Json, pos: nat)
    requires Occurs(v, at, w, pos)
    ensures at <= pos && pos + |Print(w)| <= at + |Print(v)|
    ensures w.Obj? ==> Extent(w, pos) in ObjectExtents(v, at)
    decreases v
  {
    if v == w && at == pos {
    } else if v.Obj? {
      OccursInMembersBounds(v.members, at + 1, w, pos);
    } else {
      OccursInElementsBounds(v.elements, at + 1, w, pos);
    }
  }

  lemma {:induction false} OccursInMembersBounds(ms: Members, at: nat, w: Json, pos: nat)
    requires OccursInMembers(ms, at, w, pos)
    ensures at <= pos && pos + |Print(w)| <= at + |PrintMembers(ms)|
    ensures w.Obj? ==> Extent(w, pos) in MemberExtents(ms, at)
    decreases ms
  {
    if Occurs(ms.value, at + |KeyPart(ms)|, w, pos) {
      OccursBounds(ms.value, at + |KeyPart(ms)|, w, pos);
    } else {
      OccursInMembersBounds(ms.rest, NextMember(ms, at), w, pos);
    }
  }

  lemma {:induction false} OccursInElementsBounds(es: Elements, at: nat, w: Json, pos: nat)
    requires OccursInElements(es, at, w, pos)
    ensures at <= pos && pos + |Print(w)| <= at + |PrintElements(es)|
    ensures w.Obj? ==> Extent(w, pos) in ElementExtents(es, at)
    decreases es
  {
    if Occurs(es.value, at + |es.before|, w, pos) {
      OccursBounds(es.value, at + |es.before|, w, pos);
    } else {
      OccursInElementsBounds(es.rest, NextElement(es, at), w, pos);
    }
  }

  /** A named array lies strictly inside some object of the value it is found in. */
  lemma {:induction false} NamedEnclosed(v: Json, key: string, at: nat, arr: Span)
    requires arr in NamedIn(v, key, at)
    ensures at < arr.start < arr.end < at + |Print(v)|
    ensures exists s :: s in ObjectExtents(v, at) && Encloses(s, arr)
    decreases v
  {
    match v
    case Obj(_, members) =>
      NamedInMembersBounds(members, key, at + 1, arr);
      assert Extent(v, at) in ObjectExtents(v, at) && Encloses(Extent(v, at), arr);
    case Arr(_, elements) =>
      NamedInElementsEnclosed(elements, key, at + 1, arr);
  }

  lemma {:induction false} NamedInMembersBounds(ms: Members, key: string, at: nat, arr: Span)
    requires arr in NamedInMembers(ms, key, at)
    ensures ms.Member? && at <= arr.start < arr.end <= at + |PrintMembers(ms)|
    decreases ms
  {
    var valueAt := at + |KeyPart(ms)|;
    if arr in MemberFound(ms, key, valueAt) {
      if !Named(ms, key) {
        NamedEnclosed(ms.value, key, valueAt, arr);
      }
    } else {
      NamedInMembersBounds(ms.rest, key, NextMember(ms, at), arr);
    }
  }

  lemma {:induction false} NamedInElementsEnclosed(es: Elements, key: string, at: nat, arr: Span)
    requires arr in NamedInElements(es, key, at)
    ensures es.Element? && at <= arr.start < arr.end <= at + |PrintElements(es)|
    ensures exists s :: s in ElementExtents(es, at) && Encloses(s, arr)
    decreases es
  {
    var valueAt := at + |es.before|;
    if arr in NamedIn(es.value, key, valueAt) {
      NamedEnclosed(es.value, key, valueAt, arr);
      var s :| s in ObjectExtents(es.value, valueAt) && Encloses(s, arr);
      assert s in ElementExtents(es, at);
    } else {
      NamedInElementsEnclosed(es.rest, key, NextElement(es, at), arr);
      var s :| s in ElementExtents(es.rest, NextElement(es, at)) && Encloses(s, arr);
      assert s in ElementExtents(es, at);
    }
  }

  // ---- ownership ----

  predicate Between(spans: seq<Span>, owner: Span, arr: Span) {
    exists s :: s in spans && s != owner && Encloses(owner, s) && Encloses(s, arr)
  }

  lemma BetweenMore(few: seq<Span>, many: seq<Span>, owner: Span, arr: Span)
    requires forall s :: s in few ==> s in many
    ensures Between(few, owner, arr) ==> Between(many, owner, arr)
  {
    if Between(few, owner, arr) {
      var s :| s in few && s != owner && Encloses(owner, s) && Encloses(s, arr);
      assert s in many;
    }
  }

  /** A named array with no object of `o` between is the value of a `key` member of `o` itself. */
  lemma {:induction false} DirectIsOwned(v: Json, at: nat, o: Json, pos: nat, key: string, arr: Span)
    requires o.Obj? && Occurs(v, at, o, pos) && arr in NamedIn(v, key, at)
    requires Encloses(Extent(o, pos), arr) && !Between(ObjectExtents(v, at), Extent(o, pos), arr)
    ensures arr in OwnArrays(o.members, key, pos + 1)
    decreases v
  {
    if v == o && at == pos {
      if arr !in OwnArrays(v.members, key, at + 1) {
        NotOwnedIsDeeper(v.members, key, at + 1, arr);
        var s :| s in MemberExtents(v.members, at + 1) && Encloses(s, arr);
        MemberBounds(v.members, at + 1, s);
        assert s in ObjectExtents(v, at) && Encloses(Extent(o, pos), s);
      }
    } else if v.Obj? {
      DirectIsOwnedInMembers(v.members, at + 1, o, pos, key, arr, ObjectExtents(v, at));
    } else {
      DirectIsOwnedInElements(v.elements, at + 1, o, pos, key, arr, ObjectExtents(v, at));
    }
  }

  lemma {:induction false} NotOwnedIsDeeper(ms: Members, key: string, at: nat, arr: Span)
    requires arr in NamedInMembers(ms, key, at) && arr !in OwnArrays(ms, key, at)
    ensures exists s :: s in MemberExtents(ms, at) && Encloses(s, arr)
    decreases ms
  {
    var valueAt := at + |KeyPart(ms)|;
    if arr in MemberFound(ms, key, valueAt) {
      NamedEnclosed(ms.value, key, valueAt, arr);
      var s :| s in ObjectExtents(ms.value, valueAt) && Encloses(s, arr);
      assert s in MemberExtents(ms, at);
    } else {
      NotOwnedIsDeeper(ms.rest, key, NextMember(ms, at), arr);
      var s :| s in MemberExtents(ms.rest, NextMember(ms, at)) && Encloses(s, arr);
      assert s in MemberExtents(ms, at);
    }
  }

  lemma {:induction false} DirectIsOwnedInMembers(ms: Members, at: nat, o: Json, pos: nat, key: string, arr: Span, spans: seq<Span>)
    requires o.Obj? && OccursInMembers(ms, at, o, pos) && arr in NamedInMembers(ms, key, at)
    requires forall s :: s in MemberExtents(ms, at) ==> s in spans
    requires Encloses(Extent(o, pos), arr) && !Between(spans, Extent(o, pos), arr)
    ensures arr in OwnArrays(o.members, key, pos + 1)
    decreases ms
  {
    var valueAt := at + |KeyPart(ms)|;
    var next := NextMember(ms, at);
    if Occurs(ms.value, valueAt, o, pos) {
      OccursBounds(ms.value, valueAt, o, pos);
      if arr in NamedInMembers(ms.rest, key, next) {
        NamedInMembersBounds(ms.rest, key, next, arr);
        assert false;
      } else if Named(ms, key) {
        assert false;
      } else {
        BetweenMore(ObjectExtents(ms.value, valueAt), spans, Extent(o, pos), arr);
        DirectIsOwned(ms.value, valueAt, o, pos, key, arr);
      }
    } else {
      OccursInMembersBounds(ms.rest, next, o, pos);
      if arr in MemberFound(ms, key, valueAt) {
        if !Named(ms, key) {
          NamedEnclosed(ms.value, key, valueAt, arr);
        }
        assert false;
      } else {
        DirectIsOwnedInMembers(ms.rest, next, o, pos, key, arr, spans);
      }
    }
  }

  lemma {:induction false} DirectIsOwnedInElements(es: Elements, at: nat, o: Json, pos: nat, key: string, arr: Span, spans: seq<Span>)
    requires o.Obj? && OccursInElements(es, at, o, pos) && arr in NamedInElements(es, key, at)
    requires forall s :: s in ElementExtents(es, at) ==> s in spans
    requires Encloses(Extent(o, pos), arr) && !Between(spans, Extent(o, pos), arr)
    ensures arr in OwnArrays(o.members, key, pos + 1)
    decreases es
  {
    var valueAt := at + |es.before|;
    var next := NextElement(es, at);
    if Occurs(es.value, valueAt, o, pos) {
      OccursBounds(es.value, valueAt, o, pos);
      if arr in NamedInElements(es.rest, key, next) {
        NamedInElementsEnclosed(es.rest, key, next, arr);
        assert false;
      } else {
        BetweenMore(ObjectExtents(es.value, valueAt), spans, Extent(o, pos), arr);
        DirectIsOwned(es.value, valueAt, o, pos, key, arr);
      }
    } else {
      OccursInElementsBounds(es.rest, next, o, pos);
      if arr in NamedIn(es.value, key, valueAt) {
        NamedEnclosed(es.value, key, valueAt, arr);
        assert false;
      } else {
        DirectIsOwnedInElements(es.rest, next, o, pos, key, arr, spans);
      }
    }
  }

  lemma {:induction false} InnerSpan(v: Json, at: nat, w: Json, pos: nat, s: Span)
    requires (w.Obj? || w.Arr?) && Occurs(v, at, w, pos)
    requires s in ObjectExtents(v, at) && Encloses(Extent(w, pos), s)
    ensures s in if w.Obj? then MemberExtents(w.members, pos + 1) else ElementExtents(w.elements, pos + 1)
    decreases v
  {
    if v == w && at == pos {
    } else if v.Obj? {
      OccursInMembersBounds(v.members, at + 1, w, pos);
      InnerSpanInMembers(v.members, at + 1, w, pos, s);
    } else {
      OccursInElementsBounds(v.elements, at + 1, w, pos);
      InnerSpanInElements(v.elements, at + 1, w, pos, s);
    }
  }

  lemma {:induction false} InnerSpanInMembers(ms: Members, at: nat, w: Json, pos: nat, s: Span)
    requires (w.Obj? || w.Arr?) && OccursInMembers(ms, at, w, pos)
    requires s in MemberExtents(ms, at) && Encloses(Extent(w, pos), s)
    ensures s in if w.Obj? then MemberExtents(w.members, pos + 1) else ElementExtents(w.elements, pos + 1)
    decreases ms
  {
    var valueAt := at + |KeyPart(ms)|;
    var next := NextMember(ms, at);
    if Occurs(ms.value, valueAt, w, pos) {
      OccursBounds(ms.value, valueAt, w, pos);
      if s in ObjectExtents(ms.value, valueAt) {
        InnerSpan(ms.value, valueAt, w, pos, s);
      } else {
        MemberBounds(ms.rest, next, s);
        assert false;
      }
    } else {
      OccursInMembersBounds(ms.rest, next, w, pos);
      if s in ObjectExtents(ms.value, valueAt) {
        ExtentBounds(ms.value, valueAt, s);
        assert false;
      } else {
        InnerSpanInMembers(ms.rest, next, w, pos, s);
      }
    }
  }

  lemma {:induction false} InnerSpanInElements(es: Elements, at: nat, w: Json, pos: nat, s: Span)
    requires (w.Obj? || w.Arr?) && OccursInElements(es, at, w, pos)
    requires s in ElementExtents(es, at) && Encloses(Extent(w, pos), s)
    ensures s in if w.Obj? then MemberExtents(w.members, pos + 1) else ElementExtents(w.elements, pos + 1)
    decreases es
  {
    var valueAt := at + |es.before|;
    var next := NextElement(es, at);
    if Occurs(es.value, valueAt, w, pos) {
      OccursBounds(es.value, valueAt, w, pos);
      if s in ObjectExtents(es.value, valueAt) {
        InnerSpan(es.value, valueAt, w, pos, s);
      } else {
        ElementBounds(es.rest, next, s);
        assert false;
      }
    } else {
      OccursInElementsBounds(es.rest, next, w, pos);
      if s in ObjectExtents(es.value, valueAt) {
        ExtentBounds(es.value, valueAt, s);
        assert false;
      } else {
        InnerSpanInElements(es.rest, next, w, pos, s);
      }
    }
  }

  lemma {:induction false} OwnBounds(ms: Members, key: string, at: nat, arr: Span)
    requires arr in OwnArrays(ms, key, at)
    ensures ms.Member? && at <= arr.start < arr.end <= at + |PrintMembers(ms)|
    ensures arr in NamedInMembers(ms, key, at)
    decreases ms
  {
    if arr !in (if Named(ms, key) then [Extent(ms.value, at + |KeyPart(ms)|)] else []) {
      OwnBounds(ms.rest, key, NextMember(ms, at), arr);
    }
  }

  lemma {:induction false} OwnNotEnclosed(ms: Members, key: string, at: nat, arr: Span, s: Span)
    requires arr in OwnArrays(ms, key, at) && s in MemberExtents(ms, at)
    ensures !Encloses(s, arr)
    decreases ms
  {
    var valueAt := at + |KeyPart(ms)|;
    var next := NextMember(ms, at);
    if arr in OwnArrays(ms.rest, key, next) {
      OwnBounds(ms.rest, key, next, arr);
      if s in ObjectExtents(ms.value, valueAt) {
        ExtentBounds(ms.value, valueAt, s);
      } else {
        OwnNotEnclosed(ms.rest, key, next, arr, s);
      }
    } else if s in ObjectExtents(ms.value, valueAt) {
      ExtentBounds(ms.value, valueAt, s);
    } else {
      MemberBounds(ms.rest, next, s);
    }
  }

  /** No object of the document stands between an object and the arrays it owns. */
  lemma OwnedIsDirect(v: Json, at: nat, o: Json, pos: nat, key: string, arr: Span)
    requires o.Obj? && Occurs(v, at, o, pos) && arr in OwnArrays(o.members, key, pos + 1)
    ensures ArrayIsDirect(ObjectExtents(v, at), Extent(o, pos), arr)
  {
    OwnBounds(o.members, key, pos + 1, arr);
    forall s | s in ObjectExtents(v, at) && Encloses(Extent(o, pos), s)
      ensures !Encloses(s, arr)
    {
      InnerSpan(v, at, o, pos, s);
      OwnNotEnclosed(o.members, key, pos + 1, arr, s);
    }
  }

  lemma {:induction false} VisibleOccurs(v: Json, at: nat, w: Json, pos: nat, key: string)
    requires Visible(v, at, w, pos, key)
    ensures Occurs(v, at, w, pos)
    decreases v
  {
    if v == w && at == pos {
    } else if v.Obj? {
      VisibleOccursInMembers(v.members, at + 1, w, pos, key);
    } else {
      VisibleOccursInElements(v.elements, at + 1, w, pos, key);
    }
  }

  lemma {:induction false} VisibleOccursInMembers(ms: Members, at: nat, w: Json, pos: nat, key: string)
    requires VisibleInMembers(ms, at, w, pos, key)
    ensures OccursInMembers(ms, at, w, pos)
    decreases ms
  {
    if VisibleInMembers(ms.rest, NextMember(ms, at), w, pos, key) {
      VisibleOccursInMembers(ms.rest, NextMember(ms, at), w, pos, key);
    } else {
      VisibleOccurs(ms.value, at + |KeyPart(ms)|, w, pos, key);
    }
  }

  lemma {:induction false} VisibleOccursInElements(es: Elements, at: nat, w: Json, pos: nat, key: string)
    requires VisibleInElements(es, at, w, pos, key)
    ensures OccursInElements(es, at, w, pos)
    decreases es
  {
    if Visible(es.value, at + |es.before|, w, pos, key) {
      VisibleOccurs(es.value, at + |es.before|, w, pos, key);
    } else {
      VisibleOccursInElements(es.rest, NextElement(es, at), w, pos, key);
    }
  }

  /** The name search reaches every array owned by an object it can see. */
  lemma {:induction false} OwnedIsFound(v: Json, at: nat, o: Json, pos: nat, key: string, arr: Span)
    requires o.Obj? && Visible(v, at, o, pos, key) && arr in OwnArrays(o.members, key, pos + 1)
    ensures arr in NamedIn(v, key, at)
    decreases v
  {
    if v == o && at == pos {
      OwnBounds(v.members, key, at + 1, arr);
    } else if v.Obj? {
      OwnedIsFoundInMembers(v.members, at + 1, o, pos, key, arr);
    } else {
      OwnedIsFoundInElements(v.elements, at + 1, o, pos, key, arr);
    }
  }

  lemma {:induction false} OwnedIsFoundInMembers(ms: Members, at: nat, o: Json, pos: nat, key: string, arr: Span)
    requires o.Obj? && VisibleInMembers(ms, at, o, pos, key) && arr in OwnArrays(o.members, key, pos + 1)
    ensures arr in NamedInMembers(ms, key, at)
    decreases ms
  {
    if VisibleInMembers(ms.rest, NextMember(ms, at), o, pos, key) {
      OwnedIsFoundInMembers(ms.rest, NextMember(ms, at), o, pos, key, arr);
    } else {
      OwnedIsFound(ms.value, at + |KeyPart(ms)|, o, pos, key, arr);
    }
  }

  lemma {:induction false} OwnedIsFoundInElements(es: Elements, at: nat, o: Json, pos: nat, key: string, arr: Span)
    requires o.Obj? && VisibleInElements(es, at, o, pos, key) && arr in OwnArrays(o.members, key, pos + 1)
    ensures arr in NamedInElements(es, key, at)
    decreases es
  {
    if Visible(es.value, at + |es.before|, o, pos, key) {
      OwnedIsFound(es.value, at + |es.before|, o, pos, key, arr);
    } else {
      OwnedIsFoundInElements(es.rest, NextElement(es, at), o, pos, key, arr);
    }
  }

  // ---- order: both readings list the same spans in the same order ----

  predicate Rising(spans: seq<Span>) {
    forall i, j :: 0 <= i < j < |spans| ==> spans[i].end < spans[j].end
  }

  lemma {:induction false} KeepRising(spans: seq<Span>, keep: Span -> bool)
    requires Rising(spans)
    ensures Rising(Keep(spans, keep))
    decreases |spans|
  {
    if spans != [] {
      KeepRising(spans[1..], keep);
      var rest := Keep(spans[1..], keep);
      forall s | s in rest ensures spans[0].end < s.end {
        assert s in spans[1..];
      }
    }
  }

  lemma RisingConcat(a: seq<Span>, b: seq<Span>, mid: nat)
    requires Rising(a) && Rising(b)
    requires forall s :: s in a ==> s.end <= mid
    requires forall s :: s in b ==> mid < s.end
    ensures Rising(a + b)
  {
    forall i, j | 0 <= i < j < |a + b| ensures (a + b)[i].end < (a + b)[j].end {
      if i < |a| <= j {
        assert a[i] in a && b[j - |a|] in b;
      }
    }
  }

  lemma {:induction false} RisingUnique(a: seq<Span>, b: seq<Span>)
    requires Rising(a) && Rising(b) && forall s :: s in a <==> s in b
    ensures a == b
    decreases |a|
  {
    EmptyTogether(a, b);
    if a != [] {
      assert a[0] in b && b != [] && b[0] in a;
      var i :| 0 <= i < |b| && b[i] == a[0];
      var j :| 0 <= j < |a| && a[j] == b[0];
      assert a[0] == b[0];
      forall s ensures s in a[1..] <==> s in b[1..] {
        assert s in a <==> s == a[0] || s in a[1..];
        assert s in b <==> s == b[0] || s in b[1..];
        if s == a[0] {
          assert s !in a[1..] && s !in b[1..];
        }
      }
      RisingUnique(a[1..], b[1..]);
    }
  }

  lemma {:induction false} NamedRising(v: Json, key: string, at: nat)
    ensures Rising(NamedIn(v, key, at))
    decreases v, 1
  {
    match v
    case Scalar(_) =>
    case Str(_) =>
    case Obj(_, members) => NamedMembersRising(members, key, at + 1);
    case Arr(_, elements) => NamedElementsRising(elements, key, at + 1);
  }

  lemma {:induction false} NamedMembersRising(ms: Members, key: string, at: nat)
    ensures Rising(NamedInMembers(ms, key, at))
    decreases ms
  {
    if ms.Member? {
      var valueAt := at + |KeyPart(ms)|;
      var mid := valueAt + |Print(ms.value)|;
      var next := NextMember(ms, at);
      NamedRising(ms.value, key, valueAt);
      NamedMembersRising(ms.rest, key, next);
      hide Rising;
      forall s | s in MemberFound(ms, key, valueAt) ensures s.end <= mid {
        if !Named(ms, key) {
          NamedEnclosed(ms.value, key, valueAt, s);
        }
      }
      forall s | s in NamedInMembers(ms.rest, key, next) ensures mid < s.end {
        NamedInMembersBounds(ms.rest, key, next, s);
      }
      MemberFoundRising(ms, key, valueAt);
      RisingConcat(MemberFound(ms, key, valueAt), NamedInMembers(ms.rest, key, next), mid);
    }
  }

  lemma MemberFoundRising(ms: Members, key: string, valueAt: nat)
    requires ms.Member? && Rising(NamedIn(ms.value, key, valueAt))
    ensures Rising(MemberFound(ms, key, valueAt))
  {}

  lemma {:induction false} OwnRising(ms: Members, key: string, at: nat)
    ensures Rising(OwnArrays(ms, key, at))
    decreases ms
  {
    if ms.Member? {
      var mid := at + |KeyPart(ms)| + |Print(ms.value)|;
      var next := NextMember(ms, at);
      OwnRising(ms.rest, key, next);
      forall s | s in OwnArrays(ms.rest, key, next) ensures mid < s.end {
        OwnBounds(ms.rest, key, next, s);
      }
      RisingConcat(if Named(ms, key) then [Extent(ms.value, at + |KeyPart(ms)|)] else [], OwnArrays(ms.rest, key, next), mid);
    }
  }

  lemma {:induction false} NamedElementsRising(es: Elements, key: string, at: nat)
    ensures Rising(NamedInElements(es, key, at))
    decreases es
  {
    if es.Element? {
      var valueAt := at + |es.before|;
      var mid := valueAt + |Print(es.value)|;
      var next := NextElement(es, at);
      NamedRising(es.value, key, valueAt);
      NamedElementsRising(es.rest, key, next);
      forall s | s in NamedIn(es.value, key, valueAt) ensures s.end <= mid {
        NamedEnclosed(es.value, key, valueAt, s);
      }
      forall s | s in NamedInElements(es.rest, key, next) ensures mid < s.end {
        NamedInElementsEnclosed(es.rest, key, next, s);
      }
      RisingConcat(NamedIn(es.value, key, valueAt), NamedInElements(es.rest, key, next), mid);
    }
  }

  /** For an object the search can see, the direct named arrays are exactly its own members' arrays. */
  lemma DirectArraysAreOwn(margin: string, v: Json, trailer: string, o: Json, pos: nat, key: string)
    requires Blank(margin) && Blank(trailer) && Valid(v)
    requires o.Obj? && Visible(v, |margin|, o, pos, key)
    ensures DirectNamedArrayRanges(margin + Print(v) + trailer, ObjectExtents(v, |margin|), Extent(o, pos), key)
         == Ok(OwnArrays(o.members, key, pos + 1))
  {
    var at := |margin|;
    var spans := ObjectExtents(v, at);
    var owner := Extent(o, pos);
    var direct := arr => ArrayIsDirect(spans, owner, arr);
    var found := Keep(NamedIn(v, key, at), direct);
    NamedArraysOfDocument(margin, v, trailer, key);
    VisibleOccurs(v, at, o, pos, key);
    forall arr ensures arr in found <==> arr in OwnArrays(o.members, key, pos + 1) {
      if arr in found {
        DirectIsOwned(v, at, o, pos, key, arr);
      }
      if arr in OwnArrays(o.members, key, pos + 1) {
        OwnedIsDirect(v, at, o, pos, key, arr);
        OwnedIsFound(v, at, o, pos, key, arr);
      }
    }
    NamedRising(v, key, at);
    KeepRising(NamedIn(v, key, at), direct);
    OwnRising(o.members, key, pos + 1);
    RisingUnique(found, OwnArrays(o.members, key, pos + 1));
  }

  /** A span kept as direct always belongs to the owner, even where the search does not see every array. */
  lemma DirectArraysBelong(margin: string, v: Json, trailer: string, o: Json, pos: nat, key: string)
    requires Blank(margin) && Blank(trailer) && Valid(v)
    requires o.Obj? && Occurs(v, |margin|, o, pos)
    ensures
      var r := DirectNamedArrayRanges(margin + Print(v) + trailer, ObjectExtents(v, |margin|), Extent(o, pos), key);
      r.Ok? && forall arr :: arr in r.value ==> arr in OwnArrays(o.members, key, pos + 1)
  {
    NamedArraysOfDocument(margin, v, trailer, key);
    var spans := ObjectExtents(v, |margin|);
    forall arr | arr in NamedIn(v, key, |margin|) && ArrayIsDirect(spans, Extent(o, pos), arr)
      ensures arr in OwnArrays(o.members, key, pos + 1)
    {
      DirectIsOwned(v, |margin|, o, pos, key, arr);
    }
  }
}

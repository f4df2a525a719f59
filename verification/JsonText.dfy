/**
 JSON documents as concrete syntax trees: every tree remembers its layout, so printing
 a tree yields an arbitrary legal spelling of the document (RFC 8259), escapes included.
 */
module JsonText {
  import opened Text

  /** One unit of a string body: an ordinary character, or a backslash and what it protects. */
  datatype Unit = Plain(c: char) | Escaped(c: char)

  datatype Json =
    | Scalar(text: string)
    | Str(units: seq<Unit>)
    | Obj(gap: string, members: Members)
    | Arr(gap: string, elements: Elements)

  datatype Members =
    | NoMember
    | Member(before: string, key: seq<Unit>, afterKey: string, beforeValue: string,
             value: Json, after: string, rest: Members)

  datatype Elements =
    | NoElement
    | Element(before: string, value: Json, after: string, rest: Elements)

  /** Text positions `start` (inclusive) to `end` (exclusive). */
  datatype Span = Span(start: nat, end: nat)

  predicate Blank(text: string) { forall i :: 0 <= i < |text| ==> IsBlank(text[i]) }

  /** Characters the scanners react to outside strings. */
  predicate Structural(c: char) { c in "\"{}[]" }

  predicate Quiet(text: string) { forall i :: 0 <= i < |text| ==> !Structural(text[i]) }

  predicate UnitOk(u: Unit) { u.Plain? ==> u.c != '"' && u.c != '\\' }

  predicate Valid(v: Json) {
    match v
    case Scalar(text) => text != "" && Quiet(text) && !IsBlank(text[0])
    case Str(units) => forall u :: u in units ==> UnitOk(u)
    case Obj(gap, members) => Blank(gap) && ValidMembers(members)
    case Arr(gap, elements) => Blank(gap) && ValidElements(elements)
  }

  predicate ValidMembers(ms: Members) {
    ms.Member? ==>
      && Blank(ms.before) && Blank(ms.afterKey) && Blank(ms.beforeValue) && Blank(ms.after)
      && (forall u :: u in ms.key ==> UnitOk(u))
      && Valid(ms.value) && ValidMembers(ms.rest)
  }

  predicate ValidElements(es: Elements) {
    es.Element? ==> Blank(es.before) && Blank(es.after) && Valid(es.value) && ValidElements(es.rest)
  }

  function Raw(units: seq<Unit>): string {
    if units == [] then ""
    else (match units[0] case Plain(c) => [c] case Escaped(c) => ['\\', c]) + Raw(units[1..])
  }

  function Quoted(units: seq<Unit>): string { "\"" + Raw(units) + "\"" }

  function Print(v: Json): string
    decreases v, 0
  {
    match v
    case Scalar(text) => text
    case Str(units) => Quoted(units)
    case Obj(gap, members) => "{" + (if members.NoMember? then gap else PrintMembers(members)) + "}"
    case Arr(gap, elements) => "[" + (if elements.NoElement? then gap else PrintElements(elements)) + "]"
  }

  /** What precedes a member's value: its key, the colon and the layout between them. */
  function KeyPart(ms: Members): string
    requires ms.Member?
  {
    ms.before + Quoted(ms.key) + ms.afterKey + ":" + ms.beforeValue
  }

  function PrintMembers(ms: Members): string
    decreases ms, 0
  {
    if ms.NoMember? then ""
    else KeyPart(ms) + Print(ms.value) + ms.after + MembersTail(ms.rest)
  }

  function MembersTail(ms: Members): string
    decreases ms, 1
  {
    if ms.NoMember? then "" else "," + PrintMembers(ms)
  }

  function PrintElements(es: Elements): string
    decreases es, 0
  {
    if es.NoElement? then ""
    else es.before + Print(es.value) + es.after + ElementsTail(es.rest)
  }

  function ElementsTail(es: Elements): string
    decreases es, 1
  {
    if es.NoElement? then "" else "," + PrintElements(es)
  }

  /** Extents of the objects of `v`, printed at position `at`, each after the objects inside it. */
  function ObjectExtents(v: Json, at: nat): seq<Span> {
    match v
    case Scalar(_) => []
    case Str(_) => []
    case Obj(_, members) => MemberExtents(members, at + 1) + [Span(at, at + |Print(v)|)]
    case Arr(_, elements) => ElementExtents(elements, at + 1)
  }

  function MemberExtents(ms: Members, at: nat): seq<Span> {
    if ms.NoMember? then []
    else
      var valueAt := at + |KeyPart(ms)|;
      ObjectExtents(ms.value, valueAt)
      + MemberExtents(ms.rest, valueAt + |Print(ms.value)| + |ms.after| + 1)
  }

  function ElementExtents(es: Elements, at: nat): seq<Span> {
    if es.NoElement? then []
    else
      var valueAt := at + |es.before|;
      ObjectExtents(es.value, valueAt)
      + ElementExtents(es.rest, valueAt + |Print(es.value)| + |es.after| + 1)
  }
}

/** The span scanner of the work-item source extractor, proved against printed JSON trees. */
module JsonScanner {
  import opened Outcomes
  import opened JsonText

  datatype ScanError = Unbalanced

  // ---- object spans ----

  datatype Scan = Scan(pos: nat, stack: seq<nat>, spans: seq<Span>, inString: bool, escape: bool)

  const START := Scan(0, [], [], false, false)

  function ScanChar(s: Scan, c: char): Option<Scan> {
    var n := s.(pos := s.pos + 1);
    if s.inString then
      if s.escape then Some(n.(escape := false))
      else if c == '\\' then Some(n.(escape := true))
      else if c == '"' then Some(n.(inString := false))
      else Some(n)
    else if c == '"' then Some(n.(inString := true))
    else if c == '{' then Some(n.(stack := s.stack + [s.pos]))
    else if c == '}' then
      if s.stack == [] then None
      else
        var top := |s.stack| - 1;
        Some(n.(stack := s.stack[..top], spans := s.spans + [Span(s.stack[top], s.pos + 1)]))
    else Some(n)
  }

  function ScanText(s: Scan, text: string): Option<Scan>
    decreases |text|
  {
    if text == "" then Some(s)
    else
      match ScanChar(s, text[0])
      case None => None
      case Some(n) => ScanText(n, text[1..])
  }

  function ObjectSpans(text: string): Result<seq<Span>, ScanError> {
    match ScanText(START, text)
    case None => Err(Unbalanced)
    case Some(s) => if s.stack != [] || s.inString then Err(Unbalanced) else Ok(s.spans)
  }

  method JsonObjectSpans(text: string) returns (r: Result<seq<Span>, ScanError>)
    ensures r == ObjectSpans(text)
  {
    var spans: seq<Span> := [];
    var stack: seq<nat> := [];
    var inString, escape := false, false;
    var index := 0;
    while index < |text|
      invariant 0 <= index <= |text|
      invariant ScanText(Scan(index, stack, spans, inString, escape), text[index..]) == ScanText(START, text)
    {
      var c := text[index];
      assert text[index..][0] == c && text[index..][1..] == text[index + 1..];
      if inString {
        if escape {
          escape := false;
        } else if c == '\\' {
          escape := true;
        } else if c == '"' {
          inString := false;
        }
      } else if c == '"' {
        inString := true;
      } else if c == '{' {
        stack := stack + [index];
      } else if c == '}' {
        if stack == [] {
          return Err(Unbalanced);
        }
        spans := spans + [Span(stack[|stack| - 1], index + 1)];
        stack := stack[..|stack| - 1];
      }
      index := index + 1;
    }
    if stack != [] || inString {
      return Err(Unbalanced);
    }
    return Ok(spans);
  }

  lemma {:induction false} ScanConcat(s: Scan, a: string, b: string)
    ensures ScanText(s, a + b) == match ScanText(s, a) case None => None case Some(t) => ScanText(t, b)
    decreases |a|
  {
    if a == "" {
      assert a + b == b;
    } else {
      assert (a + b)[0] == a[0] && (a + b)[1..] == a[1..] + b;
      match ScanChar(s, a[0])
      case None =>
      case Some(n) => ScanConcat(n, a[1..], b);
    }
  }

  lemma ScanThen(s: Scan, a: string, t: Scan, b: string, u: Scan)
    requires ScanText(s, a) == Some(t) && ScanText(t, b) == Some(u)
    ensures ScanText(s, a + b) == Some(u)
  {
    ScanConcat(s, a, b);
  }

  lemma ScanFour(s: Scan, a: string, t: Scan, b: string, u: Scan, c: string, w: Scan, d: string, x: Scan)
    requires ScanText(s, a) == Some(t) && ScanText(t, b) == Some(u)
    requires ScanText(u, c) == Some(w) && ScanText(w, d) == Some(x)
    ensures ScanText(s, a + b + c + d) == Some(x)
  {
    hide ScanText;
    ScanThen(s, a, t, b, u);
    ScanThen(s, a + b, u, c, w);
    ScanThen(s, a + b + c, w, d, x);
  }

  lemma ScanOne(s: Scan, c: char)
    ensures ScanText(s, [c]) == ScanChar(s, c)
  {
    match ScanChar(s, c)
    case None =>
    case Some(n) => assert [c][1..] == "" && ScanText(n, "") == Some(n);
  }

  function Past(s: Scan, width: nat): Scan { s.(pos := s.pos + width) }

  function Moved(s: Scan, width: nat, extra: seq<Span>): Scan {
    s.(pos := s.pos + width, spans := s.spans + extra)
  }

  predicate Outside(s: Scan) { !s.inString && !s.escape }

  lemma BlankIsQuiet(text: string)
    requires Blank(text)
    ensures Quiet(text)
  {}

  lemma {:induction false} ScanQuiet(s: Scan, text: string)
    requires Outside(s) && Quiet(text)
    ensures ScanText(s, text) == Some(Past(s, |text|))
    decreases |text|
  {
    if text != "" {
      assert !Structural(text[0]);
      ScanQuiet(Past(s, 1), text[1..]);
    }
  }

  lemma {:induction false} ScanRaw(s: Scan, units: seq<Unit>)
    requires s.inString && !s.escape && forall u :: u in units ==> UnitOk(u)
    ensures ScanText(s, Raw(units)) == Some(Past(s, |Raw(units)|))
    decreases |units|
  {
    if units != [] {
      var u := units[0];
      assert UnitOk(u);
      var rest := Raw(units[1..]);
      var text := Raw(units);
      if u.Plain? {
        assert text[0] == u.c && text[1..] == rest;
        ScanRaw(Past(s, 1), units[1..]);
      } else {
        assert text[0] == '\\' && text[1..][0] == u.c && text[1..][1..] == rest;
        ScanRaw(Past(s, 2), units[1..]);
      }
    }
  }

  lemma ScanQuoted(s: Scan, units: seq<Unit>)
    requires Outside(s) && forall u :: u in units ==> UnitOk(u)
    ensures ScanText(s, Quoted(units)) == Some(Past(s, |Quoted(units)|))
  {
    var inside := Past(s, 1).(inString := true);
    var atQuote := Past(inside, |Raw(units)|);
    ScanOne(s, '"');
    ScanRaw(inside, units);
    ScanOne(atQuote, '"');
    ScanThen(s, "\"", inside, Raw(units), atQuote);
    ScanThen(s, "\"" + Raw(units), atQuote, "\"", Past(s, |Quoted(units)|));
  }

  /** Scanning one printed value adds exactly its object extents and disturbs nothing else. */
  lemma {:induction false} ScanValue(s: Scan, v: Json)
    requires Outside(s) && Valid(v)
    ensures ScanText(s, Print(v)) == Some(Moved(s, |Print(v)|, ObjectExtents(v, s.pos)))
    decreases v, 1
  {
    hide ScanText;
    match v
    case Scalar(text) =>
      ScanQuiet(s, text);
      assert Moved(s, |text|, []) == Past(s, |text|);
    case Str(units) =>
      ScanQuoted(s, units);
      assert Moved(s, |Print(v)|, []) == Past(s, |Print(v)|);
    case Obj(gap, members) =>
      var entered := Past(s, 1).(stack := s.stack + [s.pos]);
      if members.NoMember? {
        BlankIsQuiet(gap);
        ScanQuiet(entered, gap);
        assert Moved(entered, |gap|, []) == Past(entered, |gap|);
        ScanBraced(s, gap, []);
      } else {
        ScanMembers(entered, members);
        ScanBraced(s, PrintMembers(members), MemberExtents(members, s.pos + 1));
      }
    case Arr(gap, elements) =>
      var entered := Past(s, 1);
      if elements.NoElement? {
        BlankIsQuiet(gap);
        ScanQuiet(entered, gap);
        assert Moved(entered, |gap|, []) == Past(entered, |gap|);
        ScanBracketed(s, gap, []);
      } else {
        ScanElements(entered, elements);
        ScanBracketed(s, PrintElements(elements), ElementExtents(elements, s.pos + 1));
      }
  }

  /** A closing brace pops the position its opener pushed and records that object. */
  lemma CloseBrace(s: Scan, width: nat, inside: seq<Span>)
    requires Outside(s)
    ensures ScanChar(Moved(Past(s, 1).(stack := s.stack + [s.pos]), width, inside), '}')
         == Some(Moved(s, width + 2, inside + [Span(s.pos, s.pos + width + 2)]))
  {
    var inner := Moved(Past(s, 1).(stack := s.stack + [s.pos]), width, inside);
    assert inner.stack[..|inner.stack| - 1] == s.stack;
    var closed := [Span(s.pos, inner.pos + 1)];
    assert (s.spans + inside) + closed == s.spans + (inside + closed);
  }

  /** The scan state inside an object: its opener is on the stack. */
  function Entered(s: Scan): Scan { Past(s, 1).(stack := s.stack + [s.pos]) }

  lemma OpenBrace(s: Scan)
    requires Outside(s)
    ensures ScanText(s, "{") == Some(Entered(s))
  {
    ScanOne(s, '{');
    hide ScanText;
  }

  lemma ShutBrace(s: Scan, width: nat, inside: seq<Span>)
    requires Outside(s)
    ensures ScanText(Moved(Entered(s), width, inside), "}") == Some(Moved(s, width + 2, inside + [Span(s.pos, s.pos + width + 2)]))
  {
    ScanOne(Moved(Entered(s), width, inside), '}');
    hide ScanText;
    CloseBrace(s, width, inside);
    hide ScanChar, Moved;
  }

  lemma ScanBraced(s: Scan, body: string, inside: seq<Span>)
    requires Outside(s)
    requires
      var entered := Past(s, 1).(stack := s.stack + [s.pos]);
      ScanText(entered, body) == Some(Moved(entered, |body|, inside))
    ensures ScanText(s, "{" + body + "}")
         == Some(Moved(s, |body| + 2, inside + [Span(s.pos, s.pos + |body| + 2)]))
  {
    hide ScanText, ScanChar, Moved;
    var inner := Moved(Entered(s), |body|, inside);
    OpenBrace(s);
    ShutBrace(s, |body|, inside);
    ScanThen(s, "{", Entered(s), body, inner);
    ScanThen(s, "{" + body, inner, "}", Moved(s, |body| + 2, inside + [Span(s.pos, s.pos + |body| + 2)]));
  }

  lemma ScanBracketed(s: Scan, body: string, inside: seq<Span>)
    requires Outside(s)
    requires ScanText(Past(s, 1), body) == Some(Moved(Past(s, 1), |body|, inside))
    ensures ScanText(s, "[" + body + "]") == Some(Moved(s, |body| + 2, inside))
  {
    hide ScanText;
    var inner := Moved(Past(s, 1), |body|, inside);
    ScanOne(s, '[');
    ScanOne(inner, ']');
    ScanThen(s, "[", Past(s, 1), body, inner);
    ScanThen(s, "[" + body, inner, "]", Past(inner, 1));
  }

  lemma ScanKeyPart(s: Scan, ms: Members)
    requires Outside(s) && ms.Member? && ValidMembers(ms)
    ensures ScanText(s, KeyPart(ms)) == Some(Past(s, |KeyPart(ms)|))
  {
    hide ScanText;
    var s1 := Past(s, |ms.before|);
    var s2 := Past(s1, |Quoted(ms.key)|);
    var glue := ms.afterKey + ":" + ms.beforeValue;
    QuietGlue(ms.afterKey, ms.beforeValue);
    BlankIsQuiet(ms.before);
    ScanQuiet(s, ms.before);
    ScanQuoted(s1, ms.key);
    ScanQuiet(s2, glue);
    ScanThen(s, ms.before, s1, Quoted(ms.key), s2);
    ScanThen(s, ms.before + Quoted(ms.key), s2, glue, Past(s2, |glue|));
    assert KeyPart(ms) == ms.before + Quoted(ms.key) + glue;
  }

  lemma QuietGlue(a: string, b: string)
    requires Blank(a) && Blank(b)
    ensures Quiet(a + ":" + b)
  {}

  /** One entry of a container: lead-in, value, layout, and whatever follows it. */
  lemma ScanEntry(s: Scan, lead: string, body: string, inside: seq<Span>, after: string, tail: string, more: seq<Span>)
    requires Outside(s) && Blank(after)
    requires ScanText(s, lead) == Some(Past(s, |lead|))
    requires ScanText(Past(s, |lead|), body) == Some(Moved(Past(s, |lead|), |body|, inside))
    requires
      var t := Moved(s, |lead| + |body| + |after|, inside);
      ScanText(t, tail) == Some(Moved(t, |tail|, more))
    ensures ScanText(s, lead + body + after + tail)
         == Some(Moved(s, |lead| + |body| + |after| + |tail|, inside + more))
  {
    hide ScanText;
    var s2 := Moved(Past(s, |lead|), |body|, inside);
    var s3 := Past(s2, |after|);
    BlankIsQuiet(after);
    ScanQuiet(s2, after);
    ScanFour(s, lead, Past(s, |lead|), body, s2, after, s3, tail, Moved(s3, |tail|, more));
    assert (s.spans + inside) + more == s.spans + (inside + more);
  }

  lemma {:induction false} ScanMembers(s: Scan, ms: Members)
    requires Outside(s) && ms.Member? && ValidMembers(ms)
    ensures ScanText(s, PrintMembers(ms)) == Some(Moved(s, |PrintMembers(ms)|, MemberExtents(ms, s.pos)))
    decreases ms, 0
  {
    hide ScanText, ScanChar, KeyPart, Quoted;
    var valueAt := s.pos + |KeyPart(ms)|;
    var inside := ObjectExtents(ms.value, valueAt);
    var next := valueAt + |Print(ms.value)| + |ms.after|;
    ScanKeyPart(s, ms);
    ScanValue(Past(s, |KeyPart(ms)|), ms.value);
    ScanMembersTail(Moved(s, next - s.pos, inside), ms.rest);
    ScanEntry(s, KeyPart(ms), Print(ms.value), inside, ms.after, MembersTail(ms.rest), MemberExtents(ms.rest, next + 1));
  }

  lemma {:induction false} ScanMembersTail(s: Scan, ms: Members)
    requires Outside(s) && ValidMembers(ms)
    ensures ScanText(s, MembersTail(ms)) == Some(Moved(s, |MembersTail(ms)|, MemberExtents(ms, s.pos + 1)))
    decreases ms, 1
  {
    if ms.Member? {
      ScanOne(s, ',');
      ScanMembers(Past(s, 1), ms);
      ScanThen(s, ",", Past(s, 1), PrintMembers(ms), Moved(s, |MembersTail(ms)|, MemberExtents(ms, s.pos + 1)));
    } else {
      assert Moved(s, 0, []) == s;
    }
  }

  lemma {:induction false} ScanElements(s: Scan, es: Elements)
    requires Outside(s) && es.Element? && ValidElements(es)
    ensures ScanText(s, PrintElements(es)) == Some(Moved(s, |PrintElements(es)|, ElementExtents(es, s.pos)))
    decreases es, 0
  {
    hide ScanText, ScanChar, Valid;
    var valueAt := s.pos + |es.before|;
    var inside := ObjectExtents(es.value, valueAt);
    var next := valueAt + |Print(es.value)| + |es.after|;
    BlankIsQuiet(es.before);
    ScanQuiet(s, es.before);
    ScanValue(Past(s, |es.before|), es.value);
    ScanElementsTail(Moved(s, next - s.pos, inside), es.rest);
    ScanEntry(s, es.before, Print(es.value), inside, es.after, ElementsTail(es.rest), ElementExtents(es.rest, next + 1));
  }

  lemma {:induction false} ScanElementsTail(s: Scan, es: Elements)
    requires Outside(s) && ValidElements(es)
    ensures ScanText(s, ElementsTail(es)) == Some(Moved(s, |ElementsTail(es)|, ElementExtents(es, s.pos + 1)))
    decreases es, 1
  {
    if es.Element? {
      ScanOne(s, ',');
      ScanElements(Past(s, 1), es);
      ScanThen(s, ",", Past(s, 1), PrintElements(es), Moved(s, |ElementsTail(es)|, ElementExtents(es, s.pos + 1)));
    } else {
      assert Moved(s, 0, []) == s;
    }
  }

  lemma ScanNothing(s: Scan)
    ensures ScanText(s, "") == Some(Moved(s, 0, []))
  {
    assert Moved(s, 0, []) == s;
  }

  /** A document between blank margins: the scanner returns exactly the object extents, innermost first. */
  lemma SpansOfDocument(margin: string, v: Json, trailer: string)
    requires Blank(margin) && Blank(trailer) && Valid(v)
    ensures ObjectSpans(margin + Print(v) + trailer) == Ok(ObjectExtents(v, |margin|))
  {
    hide ScanText, ScanChar, Print, Valid, ObjectExtents;
    var extents := ObjectExtents(v, |margin|);
    BlankIsQuiet(margin);
    ScanQuiet(START, margin);
    ScanValue(Past(START, |margin|), v);
    ScanNothing(Moved(START, |margin| + |Print(v)| + |trailer|, extents));
    ScanEntry(START, margin, Print(v), extents, trailer, "", []);
    assert margin + Print(v) + trailer + "" == margin + Print(v) + trailer;
    assert [] + (extents + []) == extents;
  }
}

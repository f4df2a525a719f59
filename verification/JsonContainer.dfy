/** The matching-bracket search: where the container opening at a given position ends. */
module JsonContainer {
  import opened Outcomes
  import opened JsonText
  import opened JsonScanner

  /** Search state: still inside the container, at its end, or stuck on a mismatch. */
  datatype Search =
    | Inside(pos: nat, stack: string, inString: bool, escape: bool)
    | Closed(end: nat)
    | Stuck

  function Closer(c: char): char { if c == '{' then '}' else ']' }

  function SearchChar(s: Search, c: char): Search {
    match s
    case Closed(_) => s
    case Stuck => s
    case Inside(pos, stack, inString, escape) =>
      var n := s.(pos := pos + 1);
      if inString then
        if escape then n.(escape := false)
        else if c == '\\' then n.(escape := true)
        else if c == '"' then n.(inString := false)
        else n
      else if c == '"' then n.(inString := true)
      else if c == '{' || c == '[' then n.(stack := stack + [c])
      else if c == '}' || c == ']' then
        if stack == "" || Closer(stack[|stack| - 1]) != c then Stuck
        else if |stack| == 1 then Closed(pos + 1)
        else n.(stack := stack[..|stack| - 1])
      else n
  }

  function SearchText(s: Search, text: string): Search
    decreases |text|
  {
    if text == "" then s else SearchText(SearchChar(s, text[0]), text[1..])
  }

  lemma {:induction false} ClosedWithin(s: Search, text: string)
    requires s.Inside?
    ensures SearchText(s, text).Closed? ==> s.pos < SearchText(s, text).end <= s.pos + |text|
    decreases |text|
  {
    if text != "" {
      var n := SearchChar(s, text[0]);
      if n.Inside? {
        ClosedWithin(n, text[1..]);
      } else {
        Halted(n, text[1..]);
      }
    }
  }

  function ContainerEnd(text: string, start: nat): (r: Result<nat, ScanError>)
    requires start < |text|
    ensures r.Ok? ==> start < r.value <= |text|
  {
    if text[start] != '{' && text[start] != '[' then Err(Unbalanced)
    else
      var s := SearchText(Inside(start + 1, [text[start]], false, false), text[start + 1..]);
      ClosedWithin(Inside(start + 1, [text[start]], false, false), text[start + 1..]);
      if s.Closed? then Ok(s.end) else Err(Unbalanced)
  }

  method JsonContainerEnd(text: string, start: nat) returns (r: Result<nat, ScanError>)
    requires start < |text|
    ensures r == ContainerEnd(text, start)
  {
    if text[start] != '{' && text[start] != '[' {
      return Err(Unbalanced);
    }
    var stack := [text[start]];
    var inString, escape := false, false;
    var index := start + 1;
    while index < |text|
      invariant start + 1 <= index <= |text|
      invariant stack != ""
      invariant SearchText(Inside(index, stack, inString, escape), text[index..])
             == SearchText(Inside(start + 1, [text[start]], false, false), text[start + 1..])
    {
      var c := text[index];
      assert text[index..][0] == c && text[index..][1..] == text[index + 1..];
      if inString {
        if escape {
          escape := false;
        } else if c == '\\' {
          escape := true;
        } else if c == '"' {
          inString := false;
        }
      } else if c == '"' {
        inString := true;
      } else if c == '{' || c == '[' {
        stack := stack + [c];
      } else if c == '}' || c == ']' {
        if Closer(stack[|stack| - 1]) != c {
          Halted(Stuck, text[index + 1..]);
          return Err(Unbalanced);
        }
        stack := stack[..|stack| - 1];
        if stack == "" {
          Halted(Closed(index + 1), text[index + 1..]);
          return Ok(index + 1);
        }
      }
      index := index + 1;
    }
    return Err(Unbalanced);
  }

  lemma {:induction false} Halted(s: Search, text: string)
    requires !s.Inside?
    ensures SearchText(s, text) == s
    decreases |text|
  {
    if text != "" {
      Halted(s, text[1..]);
    }
  }

  lemma {:induction false} SearchConcat(s: Search, a: string, b: string)
    ensures SearchText(s, a + b) == SearchText(SearchText(s, a), b)
    decreases |a|
  {
    if a == "" {
      assert a + b == b;
    } else {
      assert (a + b)[0] == a[0] && (a + b)[1..] == a[1..] + b;
      SearchConcat(SearchChar(s, a[0]), a[1..], b);
    }
  }

  function On(s: Search, width: nat): Search
    requires s.Inside?
  {
    s.(pos := s.pos + width)
  }

  predicate Within(s: Search) { s.Inside? && !s.inString && !s.escape && s.stack != "" }

  lemma {:induction false} SearchQuiet(s: Search, text: string)
    requires Within(s) && Quiet(text)
    ensures SearchText(s, text) == On(s, |text|)
    decreases |text|
  {
    if text != "" {
      assert !Structural(text[0]);
      SearchQuiet(On(s, 1), text[1..]);
    }
  }

  lemma {:induction false} SearchRaw(s: Search, units: seq<Unit>)
    requires s.Inside? && s.inString && !s.escape && forall u :: u in units ==> UnitOk(u)
    ensures SearchText(s, Raw(units)) == On(s, |Raw(units)|)
    decreases |units|
  {
    if units != [] {
      var u := units[0];
      assert UnitOk(u);
      var text := Raw(units);
      if u.Plain? {
        assert text[0] == u.c && text[1..] == Raw(units[1..]);
        SearchRaw(On(s, 1), units[1..]);
      } else {
        assert text[0] == '\\' && text[1..][0] == u.c && text[1..][1..] == Raw(units[1..]);
        SearchRaw(On(s, 2), units[1..]);
      }
    }
  }

  lemma SearchOne(s: Search, c: char)
    ensures SearchText(s, [c]) == SearchChar(s, c)
  {
    assert [c][1..] == "" && SearchText(SearchChar(s, c), "") == SearchChar(s, c);
  }

  lemma SearchQuoted(s: Search, units: seq<Unit>)
    requires Within(s) && forall u :: u in units ==> UnitOk(u)
    ensures SearchText(s, Quoted(units)) == On(s, |Quoted(units)|)
  {
    var inside := s.(pos := s.pos + 1, inString := true);
    SearchOne(s, '"');
    SearchRaw(inside, units);
    SearchOne(On(inside, |Raw(units)|), '"');
    SearchConcat(s, "\"", Raw(units));
    SearchConcat(s, "\"" + Raw(units), "\"");
  }

  /** A whole value inside a container leaves the search where it was, one value further on. */
  lemma {:induction false} SearchValue(s: Search, v: Json)
    requires Within(s) && Valid(v)
    ensures SearchText(s, Print(v)) == On(s, |Print(v)|)
    decreases v, 2
  {
    hide SearchText;
    match v
    case Scalar(text) => SearchQuiet(s, text);
    case Str(units) => SearchQuoted(s, units);
    case Obj(gap, members) =>
      SearchBody(Entered(s, '{'), v);
      SearchNested(s, '{', Body(v));
    case Arr(gap, elements) =>
      SearchBody(Entered(s, '['), v);
      SearchNested(s, '[', Body(v));
  }

  /** What stands between the brackets of a container. */
  function Body(v: Json): string
    requires v.Obj? || v.Arr?
    ensures Print(v) == [if v.Obj? then '{' else '['] + Body(v) + [if v.Obj? then '}' else ']']
  {
    if v.Obj? then (if v.members.NoMember? then v.gap else PrintMembers(v.members))
    else (if v.elements.NoElement? then v.gap else PrintElements(v.elements))
  }

  lemma {:induction false} SearchBody(s: Search, v: Json)
    requires Within(s) && Valid(v) && (v.Obj? || v.Arr?)
    ensures SearchText(s, Body(v)) == On(s, |Body(v)|)
    decreases v, 1
  {
    hide SearchText;
    BlankIsQuiet(v.gap);
    if v.Obj? {
      if v.members.NoMember? {
        SearchQuiet(s, v.gap);
      } else {
        SearchMembers(s, v.members);
      }
    } else if v.elements.NoElement? {
      SearchQuiet(s, v.gap);
    } else {
      SearchElements(s, v.elements);
    }
  }

  function Entered(s: Search, open: char): Search
    requires s.Inside?
  {
    s.(pos := s.pos + 1, stack := s.stack + [open])
  }

  lemma Brackets(s: Search, open: char, width: nat)
    requires Within(s) && (open == '{' || open == '[')
    ensures SearchChar(s, open) == Entered(s, open)
    ensures SearchChar(On(Entered(s, open), width), Closer(open)) == On(s, width + 2)
  {
    assert (s.stack + [open])[..|s.stack|] == s.stack;
  }

  lemma SearchNested(s: Search, open: char, body: string)
    requires Within(s) && (open == '{' || open == '[')
    requires SearchText(Entered(s, open), body) == On(Entered(s, open), |body|)
    ensures SearchText(s, [open] + body + [Closer(open)]) == On(s, |body| + 2)
  {
    hide SearchText, SearchChar, Closer;
    Brackets(s, open, |body|);
    SearchOne(s, open);
    SearchOne(On(Entered(s, open), |body|), Closer(open));
    SearchConcat(s, [open], body);
    SearchConcat(s, [open] + body, [Closer(open)]);
  }

  lemma SearchKeyPart(s: Search, ms: Members)
    requires Within(s) && ms.Member? && ValidMembers(ms)
    ensures SearchText(s, KeyPart(ms)) == On(s, |KeyPart(ms)|)
  {
    hide SearchText;
    var glue := ms.afterKey + ":" + ms.beforeValue;
    QuietGlue(ms.afterKey, ms.beforeValue);
    BlankIsQuiet(ms.before);
    SearchQuiet(s, ms.before);
    SearchQuoted(On(s, |ms.before|), ms.key);
    SearchQuiet(On(s, |ms.before| + |Quoted(ms.key)|), glue);
    SearchConcat(s, ms.before, Quoted(ms.key));
    SearchConcat(s, ms.before + Quoted(ms.key), glue);
    assert KeyPart(ms) == ms.before + Quoted(ms.key) + glue;
  }

  lemma SearchEntry(s: Search, lead: string, body: string, after: string, tail: string)
    requires Within(s) && Blank(after)
    requires SearchText(s, lead) == On(s, |lead|)
    requires SearchText(On(s, |lead|), body) == On(s, |lead| + |body|)
    requires
      var t := On(s, |lead| + |body| + |after|);
      SearchText(t, tail) == On(t, |tail|)
    ensures SearchText(s, lead + body + after + tail) == On(s, |lead| + |body| + |after| + |tail|)
  {
    hide SearchText;
    BlankIsQuiet(after);
    SearchQuiet(On(s, |lead| + |body|), after);
    SearchConcat(s, lead, body);
    SearchConcat(s, lead + body, after);
    SearchConcat(s, lead + body + after, tail);
  }

  lemma {:induction false} SearchMembers(s: Search, ms: Members)
    requires Within(s) && ms.Member? && ValidMembers(ms)
    ensures SearchText(s, PrintMembers(ms)) == On(s, |PrintMembers(ms)|)
    decreases ms, 0
  {
    hide SearchText, SearchChar, KeyPart;
    SearchKeyPart(s, ms);
    SearchValue(On(s, |KeyPart(ms)|), ms.value);
    var t := On(s, |KeyPart(ms)| + |Print(ms.value)| + |ms.after|);
    SearchComma(t, MembersTail(ms.rest));
    if ms.rest.Member? {
      SearchMembers(On(t, 1), ms.rest);
    }
    SearchEntry(s, KeyPart(ms), Print(ms.value), ms.after, MembersTail(ms.rest));
  }

  lemma {:induction false} SearchElements(s: Search, es: Elements)
    requires Within(s) && es.Element? && ValidElements(es)
    ensures SearchText(s, PrintElements(es)) == On(s, |PrintElements(es)|)
    decreases es, 0
  {
    hide SearchText, SearchChar;
    BlankIsQuiet(es.before);
    SearchQuiet(s, es.before);
    SearchValue(On(s, |es.before|), es.value);
    var t := On(s, |es.before| + |Print(es.value)| + |es.after|);
    SearchComma(t, ElementsTail(es.rest));
    if es.rest.Element? {
      SearchElements(On(t, 1), es.rest);
    }
    SearchEntry(s, es.before, Print(es.value), es.after, ElementsTail(es.rest));
  }

  lemma SearchComma(s: Search, tail: string)
    requires Within(s)
    ensures tail == "" ==> SearchText(s, tail) == s
    ensures tail != "" && tail[0] == ',' ==> SearchText(s, tail) == SearchText(On(s, 1), tail[1..])
  {}

  lemma LastBracket(pos: nat, open: char)
    requires open == '{' || open == '['
    ensures SearchChar(Inside(pos, [open], false, false), Closer(open)) == Closed(pos + 1)
  {}

  /** The bracket search returns the true extent of a container, whatever surrounds it. */
  lemma EndOfContainer(before: string, v: Json, behind: string)
    requires Valid(v) && (v.Obj? || v.Arr?)
    ensures ContainerEnd(before + Print(v) + behind, |before|) == Ok(|before| + |Print(v)|)
  {
    hide SearchText, SearchChar, Closer, Valid;
    var open := if v.Obj? then '{' else '[';
    var s := Inside(|before| + 1, [open], false, false);
    SearchBody(s, v);
    SearchOne(On(s, |Body(v)|), Closer(open));
    LastBracket(|before| + 1 + |Body(v)|, open);
    Halted(Closed(|before| + |Print(v)|), behind);
    SearchConcat(s, Body(v), [Closer(open)]);
    SearchConcat(s, Body(v) + [Closer(open)], behind);
    BodySits(before, v, behind);
  }

  lemma BodySits(before: string, v: Json, behind: string)
    requires v.Obj? || v.Arr?
    ensures
      var text := before + Print(v) + behind;
      var open := if v.Obj? then '{' else '[';
      text[|before|] == open && text[|before| + 1..] == Body(v) + [Closer(open)] + behind
  {
    hide Print, Body;
    var open := if v.Obj? then '{' else '[';
    assert Print(v) == [open] + Body(v) + [Closer(open)];
  }
}

/** Arrays found by property name, and which object really owns them. */
module JsonArrays {
  import opened Outcomes
  import opened JsonText
  import opened Text
  import opened JsonScanner
  import opened JsonContainer

  function SkipSpace(text: string, i: nat): (j: nat)
    requires i <= |text|
    ensures i <= j <= |text|
    decreases |text| - i
  {
    if i < |text| && IsBlank(text[i]) then SkipSpace(text, i + 1) else i
  }

  /** The array a just-closed string names: its raw text is `key` and `: [` follows. */
  function NamedValue(text: string, key: string, start: nat, close: nat): (r: Option<nat>)
    requires start < close < |text|
    ensures r.Some? ==> close < r.value < |text|
  {
    if text[start + 1..close] != key then None
    else
      var colon := SkipSpace(text, close + 1);
      if colon == |text| || text[colon] != ':' then None
      else
        var value := SkipSpace(text, colon + 1);
        if value < |text| && text[value] == '[' then Some(value) else None
  }

  datatype Mode = Outer | Quote(start: nat, escape: bool)

  function NamedFrom(text: string, key: string, i: nat, mode: Mode): Result<seq<Span>, ScanError>
    requires i <= |text| && (mode.Quote? ==> mode.start < i)
    decreases |text| - i
  {
    if i == |text| then (if mode.Quote? then Err(Unbalanced) else Ok([]))
    else if mode.Quote? then
      if mode.escape then NamedFrom(text, key, i + 1, mode.(escape := false))
      else if text[i] == '\\' then NamedFrom(text, key, i + 1, mode.(escape := true))
      else if text[i] == '"' then AfterString(text, key, mode.start, i)
      else NamedFrom(text, key, i + 1, mode)
    else if text[i] == '"' then NamedFrom(text, key, i + 1, Quote(i, false))
    else NamedFrom(text, key, i + 1, Outer)
  }

  function AfterString(text: string, key: string, start: nat, close: nat): Result<seq<Span>, ScanError>
    requires start < close < |text|
    decreases |text| - close, 0
  {
    match NamedValue(text, key, start, close)
    case None => NamedFrom(text, key, close + 1, Outer)
    case Some(value) =>
      match ContainerEnd(text, value)
      case Err(e) => Err(e)
      case Ok(end) => Join([Span(value, end)], NamedFrom(text, key, end, Outer))
  }

  function Join(found: seq<Span>, more: Result<seq<Span>, ScanError>): Result<seq<Span>, ScanError> {
    match more
    case Err(e) => Err(e)
    case Ok(spans) => Ok(found + spans)
  }

  lemma JoinNothing(r: Result<seq<Span>, ScanError>)
    ensures Join([], r) == r
  {
    if r.Ok? {
      assert [] + r.value == r.value;
    }
  }

  lemma JoinTwice(a: seq<Span>, b: seq<Span>, r: Result<seq<Span>, ScanError>)
    ensures Join(a, Join(b, r)) == Join(a + b, r)
  {
    if r.Ok? {
      assert a + (b + r.value) == (a + b) + r.value;
    }
  }

  method NamedArrayRanges(text: string, key: string) returns (r: Result<seq<Span>, ScanError>)
    ensures r == NamedFrom(text, key, 0, Outer)
  {
    var ranges: seq<Span> := [];
    var inString, escape := false, false;
    var stringStart: nat := 0;
    var index := 0;
    JoinNothing(NamedFrom(text, key, 0, Outer));
    while index < |text|
      invariant 0 <= index <= |text|
      invariant inString ==> stringStart < index
      invariant !inString ==> !escape
      invariant NamedFrom(text, key, 0, Outer)
             == Join(ranges, NamedFrom(text, key, index, if inString then Quote(stringStart, escape) else Outer))
      decreases |text| - index
    {
      var c := text[index];
      if inString {
        if escape {
          escape := false;
        } else if c == '\\' {
          escape := true;
        } else if c == '"' {
          inString := false;
          if text[stringStart + 1..index] == key {
            var cursor := SkipSpaces(text, index + 1);
            if cursor < |text| && text[cursor] == ':' {
              cursor := SkipSpaces(text, cursor + 1);
              if cursor < |text| && text[cursor] == '[' {
                var end := JsonContainerEnd(text, cursor);
                if end.Err? {
                  return Err(Unbalanced);
                }
                JoinTwice(ranges, [Span(cursor, end.value)], NamedFrom(text, key, end.value, Outer));
                ranges := ranges + [Span(cursor, end.value)];
                index := end.value;
                continue;
              }
            }
          }
        }
        index := index + 1;
        continue;
      }
      if c == '"' {
        inString := true;
        stringStart := index;
      }
      index := index + 1;
    }
    if inString {
      return Err(Unbalanced);
    }
    assert ranges + [] == ranges;
    return Ok(ranges);
  }

  method SkipSpaces(text: string, from: nat) returns (cursor: nat)
    requires from <= |text|
    ensures cursor == SkipSpace(text, from)
  {
    cursor := from;
    while cursor < |text| && IsBlank(text[cursor])
      invariant from <= cursor <= |text|
      invariant SkipSpace(text, cursor) == SkipSpace(text, from)
    {
      cursor := cursor + 1;
    }
  }

  // ---- the same search on the tree ----

  predicate Named(ms: Members, key: string) {
    ms.Member? && Raw(ms.key) == key && ms.value.Arr?
  }

  /** Arrays that are the value of a member called `key`, not looking inside those already found. */
  function NamedIn(v: Json, key: string, at: nat): seq<Span> {
    match v
    case Scalar(_) => []
    case Str(_) => []
    case Obj(_, members) => NamedInMembers(members, key, at + 1)
    case Arr(_, elements) => NamedInElements(elements, key, at + 1)
  }

  function MemberFound(ms: Members, key: string, valueAt: nat): seq<Span>
    requires ms.Member?
    decreases ms, 0
  {
    if Named(ms, key) then [Span(valueAt, valueAt + |Print(ms.value)|)] else NamedIn(ms.value, key, valueAt)
  }

  function NamedInMembers(ms: Members, key: string, at: nat): seq<Span>
    decreases ms, 1
  {
    if ms.NoMember? then []
    else
      var valueAt := at + |KeyPart(ms)|;
      MemberFound(ms, key, valueAt)
      + NamedInMembers(ms.rest, key, valueAt + |Print(ms.value)| + |ms.after| + 1)
  }

  function NamedInElements(es: Elements, key: string, at: nat): seq<Span> {
    if es.NoElement? then []
    else
      var valueAt := at + |es.before|;
      NamedIn(es.value, key, valueAt)
      + NamedInElements(es.rest, key, valueAt + |Print(es.value)| + |es.after| + 1)
  }

  predicate Here(text: string, at: nat, piece: string) {
    at + |piece| <= |text| && text[at..at + |piece|] == piece
  }

  lemma HereSplit(text: string, at: nat, a: string, b: string)
    requires Here(text, at, a + b)
    ensures Here(text, at, a) && Here(text, at + |a|, b)
    ensures at + |a| + |b| <= |text|
  {
    assert text[at..at + |a|] == (a + b)[..|a|];
    assert text[at + |a|..at + |a| + |b|] == (a + b)[|a|..];
  }

  lemma HereFour(text: string, at: nat, a: string, b: string, c: string, d: string)
    requires Here(text, at, a + b + c + d)
    ensures Here(text, at, a) && Here(text, at + |a|, b) && Here(text, at + |a| + |b|, c)
    ensures Here(text, at + |a| + |b| + |c|, d)
    ensures at + |a| + |b| + |c| + |d| <= |text|
  {
    hide Here;
    HereSplit(text, at, a + b + c, d);
    HereSplit(text, at, a + b, c);
    HereSplit(text, at, a, b);
  }

  lemma HereAt(text: string, at: nat, piece: string, k: nat)
    requires Here(text, at, piece) && k < |piece|
    ensures at + k < |text| && text[at + k] == piece[k]
  {
    assert text[at + k] == text[at..at + |piece|][k];
  }

  lemma {:induction false} SkipBlank(text: string, at: nat, gap: string)
    requires Here(text, at, gap) && Blank(gap)
    ensures SkipSpace(text, at) == SkipSpace(text, at + |gap|)
    decreases |gap|
  {
    if gap != "" {
      HereAt(text, at, gap, 0);
      HereSplit(text, at, gap[..1], gap[1..]);
      assert gap == gap[..1] + gap[1..];
      SkipBlank(text, at + 1, gap[1..]);
    }
  }

  lemma {:induction false} NamedQuiet(text: string, key: string, at: nat, piece: string)
    requires Here(text, at, piece) && Quiet(piece)
    ensures NamedFrom(text, key, at, Outer) == NamedFrom(text, key, at + |piece|, Outer)
    decreases |piece|
  {
    if piece != "" {
      assert !Structural(piece[0]);
      HereAt(text, at, piece, 0);
      assert piece == piece[..1] + piece[1..];
      HereSplit(text, at, piece[..1], piece[1..]);
      NamedQuiet(text, key, at + 1, piece[1..]);
    }
  }

  lemma {:induction false} NamedRaw(text: string, key: string, at: nat, units: seq<Unit>, start: nat)
    requires start < at && Here(text, at, Raw(units)) && forall u :: u in units ==> UnitOk(u)
    ensures NamedFrom(text, key, at, Quote(start, false))
         == NamedFrom(text, key, at + |Raw(units)|, Quote(start, false))
    decreases |units|
  {
    if units != [] {
      var u := units[0];
      assert UnitOk(u);
      var piece := Raw(units);
      var rest := Raw(units[1..]);
      HereAt(text, at, piece, 0);
      if u.Plain? {
        assert piece == [u.c] + rest;
        HereSplit(text, at, [u.c], rest);
        NamedRaw(text, key, at + 1, units[1..], start);
      } else {
        assert piece == ['\\', u.c] + rest;
        HereAt(text, at, piece, 1);
        HereSplit(text, at, ['\\', u.c], rest);
        NamedRaw(text, key, at + 2, units[1..], start);
      }
    }
  }

  /** Crossing a string leads to the decision made at its closing quote. */
  lemma NamedQuoted(text: string, key: string, at: nat, units: seq<Unit>)
    requires Here(text, at, Quoted(units)) && forall u :: u in units ==> UnitOk(u)
    ensures
      var close := at + |Raw(units)| + 1;
      && close < |text| && text[at + 1..close] == Raw(units)
      && NamedFrom(text, key, at, Outer) == AfterString(text, key, at, close)
  {
    var piece := Quoted(units);
    HereAt(text, at, piece, 0);
    HereAt(text, at, piece, |piece| - 1);
    assert piece == "\"" + (Raw(units) + "\"");
    HereSplit(text, at, "\"", Raw(units) + "\"");
    HereSplit(text, at + 1, Raw(units), "\"");
    var close := at + |Raw(units)| + 1;
    assert text[at] == '"' && text[close] == '"' && text[at + 1..close] == Raw(units);
    NamedRaw(text, key, at + 1, units, at);
    hide AfterString, Here, Raw, UnitOk, Quoted;
    assert NamedFrom(text, key, at, Outer) == NamedFrom(text, key, at + 1, Quote(at, false));
    assert NamedFrom(text, key, close, Quote(at, false)) == AfterString(text, key, at, close);
  }

  /** Nothing but blanks and then something other than a colon follows position `i`. */
  predicate NoColon(text: string, i: nat)
    requires i <= |text|
  {
    var j := SkipSpace(text, i);
    j == |text| || text[j] != ':'
  }

  lemma {:induction false} NamedInValue(text: string, key: string, at: nat, v: Json)
    requires Valid(v) && Here(text, at, Print(v))
    requires v.Str? ==> NoColon(text, at + |Print(v)|)
    ensures NamedFrom(text, key, at, Outer)
         == Join(NamedIn(v, key, at), NamedFrom(text, key, at + |Print(v)|, Outer))
    decreases v, 1
  {
    match v
    case Scalar(piece) =>
      NamedQuiet(text, key, at, piece);
      JoinNothing(NamedFrom(text, key, at + |Print(v)|, Outer));
    case Str(units) =>
      NamedQuoted(text, key, at, units);
      JoinNothing(NamedFrom(text, key, at + |Print(v)|, Outer));
    case Obj(gap, members) => NamedInContainer(text, key, at, v);
    case Arr(gap, elements) => NamedInContainer(text, key, at, v);
  }

  lemma {:induction false} NamedInContainer(text: string, key: string, at: nat, v: Json)
    requires Valid(v) && (v.Obj? || v.Arr?) && Here(text, at, Print(v))
    ensures NamedFrom(text, key, at, Outer)
         == Join(NamedIn(v, key, at), NamedFrom(text, key, at + |Print(v)|, Outer))
    decreases v, 0
  {
    hide NamedFrom, Print;
    var open := [if v.Obj? then '{' else '['];
    var close := [if v.Obj? then '}' else ']'];
    assert Print(v) == open + Body(v) + close;
    HereSplit(text, at, open + Body(v), close);
    HereSplit(text, at, open, Body(v));
    var end := at + 1 + |Body(v)|;
    HereAt(text, at, open, 0);
    HereAt(text, end, close, 0);
    PassBracket(text, key, at);
    PassBracket(text, key, end);
    BlankIsQuiet(v.gap);
    JoinNothing(NamedFrom(text, key, end, Outer));
    if v.Obj? {
      if v.members.NoMember? {
        NamedQuiet(text, key, at + 1, v.gap);
      } else {
        NamedInMemberList(text, key, at + 1, v.members);
      }
    } else if v.elements.NoElement? {
      NamedQuiet(text, key, at + 1, v.gap);
    } else {
      NamedInElementList(text, key, at + 1, v.elements);
    }
  }

  lemma PassBracket(text: string, key: string, at: nat)
    requires at < |text| && text[at] != '"'
    ensures NamedFrom(text, key, at, Outer) == NamedFrom(text, key, at + 1, Outer)
  {}

  lemma {:induction false} NamedInMemberList(text: string, key: string, at: nat, ms: Members)
    requires ms.Member? && ValidMembers(ms) && Here(text, at, PrintMembers(ms))
    requires at + |PrintMembers(ms)| < |text| && text[at + |PrintMembers(ms)|] == '}'
    ensures NamedFrom(text, key, at, Outer)
         == Join(NamedInMembers(ms, key, at), NamedFrom(text, key, at + |PrintMembers(ms)|, Outer))
    decreases ms
  {
    hide NamedFrom, Print, KeyPart, NamedIn, SkipSpace, Here;
    var valueAt := at + |KeyPart(ms)|;
    var valueEnd := valueAt + |Print(ms.value)|;
    var tailAt := valueEnd + |ms.after|;
    var tail := MembersTail(ms.rest);
    HereFour(text, at, KeyPart(ms), Print(ms.value), ms.after, tail);
    SeparatorFollows(text, tailAt, tail, '}');
    NoColonAfter(text, valueEnd, ms.after);
    NamedEntry(text, key, at, ms);
    BlankIsQuiet(ms.after);
    NamedQuiet(text, key, valueEnd, ms.after);
    if ms.rest.Member? {
      HereSplit(text, tailAt, ",", PrintMembers(ms.rest));
      PassBracket(text, key, tailAt);
      NamedInMemberList(text, key, tailAt + 1, ms.rest);
    }
    JoinLists(text, key, at, MemberFound(ms, key, valueAt), NamedInMembers(ms.rest, key, tailAt + 1), valueEnd, tailAt, at + |PrintMembers(ms)|, tail != "");
  }

  lemma {:induction false} NamedInElementList(text: string, key: string, at: nat, es: Elements)
    requires es.Element? && ValidElements(es) && Here(text, at, PrintElements(es))
    requires at + |PrintElements(es)| < |text| && text[at + |PrintElements(es)|] == ']'
    ensures NamedFrom(text, key, at, Outer)
         == Join(NamedInElements(es, key, at), NamedFrom(text, key, at + |PrintElements(es)|, Outer))
    decreases es
  {
    hide NamedFrom, Print, KeyPart, NamedIn, SkipSpace, Here;
    var valueAt := at + |es.before|;
    var valueEnd := valueAt + |Print(es.value)|;
    var tailAt := valueEnd + |es.after|;
    var tail := ElementsTail(es.rest);
    HereFour(text, at, es.before, Print(es.value), es.after, tail);
    SeparatorFollows(text, tailAt, tail, ']');
    NoColonAfter(text, valueEnd, es.after);
    BlankIsQuiet(es.before);
    NamedQuiet(text, key, at, es.before);
    NamedInValue(text, key, valueAt, es.value);
    BlankIsQuiet(es.after);
    NamedQuiet(text, key, valueEnd, es.after);
    if es.rest.Element? {
      HereSplit(text, tailAt, ",", PrintElements(es.rest));
      PassBracket(text, key, tailAt);
      NamedInElementList(text, key, tailAt + 1, es.rest);
    }
    JoinLists(text, key, at, NamedIn(es.value, key, valueAt), NamedInElements(es.rest, key, tailAt + 1), valueEnd, tailAt, at + |PrintElements(es)|, tail != "");
  }

  lemma JoinLists(text: string, key: string, at: nat, found: seq<Span>, more: seq<Span>, mid: nat, tailAt: nat, end: nat, comma: bool)
    requires at <= mid <= tailAt <= end <= |text| && (comma ==> tailAt < end) && (!comma ==> tailAt == end && more == [])
    requires NamedFrom(text, key, at, Outer) == Join(found, NamedFrom(text, key, mid, Outer))
    requires NamedFrom(text, key, mid, Outer) == NamedFrom(text, key, tailAt, Outer)
    requires comma ==> NamedFrom(text, key, tailAt, Outer) == NamedFrom(text, key, tailAt + 1, Outer)
    requires comma ==> NamedFrom(text, key, tailAt + 1, Outer) == Join(more, NamedFrom(text, key, end, Outer))
    ensures NamedFrom(text, key, at, Outer) == Join(found + more, NamedFrom(text, key, end, Outer))
  {
    hide NamedFrom;
    if comma {
      JoinTwice(found, more, NamedFrom(text, key, end, Outer));
    } else {
      assert found + more == found;
    }
  }

  lemma SeparatorFollows(text: string, at: nat, tail: string, closer: char)
    requires Here(text, at, tail) && (tail == "" || tail[0] == ',')
    requires at + |tail| < |text| && text[at + |tail|] == closer
    ensures text[at] == if tail == "" then closer else ','
  {
    if tail != "" {
      HereAt(text, at, tail, 0);
    }
  }

  lemma NoColonAfter(text: string, at: nat, gap: string)
    requires Here(text, at, gap) && Blank(gap) && at + |gap| < |text|
    requires text[at + |gap|] in ",]}"
    ensures NoColon(text, at)
  {
    SkipBlank(text, at, gap);
  }

  /** A member's key string: where it closes, and what the search decides there. */
  lemma NamedKey(text: string, key: string, at: nat, ms: Members)
    requires ms.Member? && ValidMembers(ms)
    requires Here(text, at, KeyPart(ms)) && Here(text, at + |KeyPart(ms)|, Print(ms.value))
    ensures
      var quoteAt := at + |ms.before|;
      var close := quoteAt + |Raw(ms.key)| + 1;
      && close < at + |KeyPart(ms)| < |text|
      && Here(text, close + 1, ms.afterKey + ":" + ms.beforeValue)
      && close + 1 + |ms.afterKey + ":" + ms.beforeValue| == at + |KeyPart(ms)|
      && NamedFrom(text, key, at, Outer) == AfterString(text, key, quoteAt, close)
      && NamedValue(text, key, quoteAt, close) == if Named(ms, key) then Some(at + |KeyPart(ms)|) else None
  {
    hide NamedFrom, AfterString, Here, SkipSpace, Print;
    var quoteAt := at + |ms.before|;
    var close := quoteAt + |Raw(ms.key)| + 1;
    var glue := ms.afterKey + ":" + ms.beforeValue;
    var colonAt := close + 1 + |ms.afterKey|;
    assert KeyPart(ms) == ms.before + Quoted(ms.key) + glue;
    HereSplit(text, at, ms.before + Quoted(ms.key), glue);
    HereSplit(text, at, ms.before, Quoted(ms.key));
    BlankIsQuiet(ms.before);
    NamedQuiet(text, key, at, ms.before);
    NamedQuoted(text, key, quoteAt, ms.key);
    FirstChar(text, at + |KeyPart(ms)|, ms.value);
    ColonThenValue(text, close + 1, ms.afterKey, ms.beforeValue);
  }

  /** Skipping blanks after a key finds the colon, and skipping again finds the value. */
  lemma ColonThenValue(text: string, at: nat, gap: string, gap': string)
    requires Blank(gap) && Blank(gap') && Here(text, at, gap + ":" + gap')
    requires
      var next := at + |gap| + 1 + |gap'|;
      next < |text| && !IsBlank(text[next])
    ensures
      var colon := SkipSpace(text, at);
      && colon < |text| && text[colon] == ':'
      && SkipSpace(text, colon + 1) == at + |gap| + 1 + |gap'|
  {
    hide Here;
    HereSplit(text, at, gap + ":", gap');
    HereSplit(text, at, gap, ":");
    HereAt(text, at + |gap|, ":", 0);
    SkipBlank(text, at, gap);
    SkipBlank(text, at + |gap| + 1, gap');
  }

  /** From a member's key to the end of its value: the array is taken whole, or its value searched. */
  lemma {:induction false} NamedEntry(text: string, key: string, at: nat, ms: Members)
    requires ms.Member? && ValidMembers(ms)
    requires Here(text, at, KeyPart(ms)) && Here(text, at + |KeyPart(ms)|, Print(ms.value))
    requires NoColon(text, at + |KeyPart(ms)| + |Print(ms.value)|)
    ensures
      var valueAt := at + |KeyPart(ms)|;
      var valueEnd := valueAt + |Print(ms.value)|;
      NamedFrom(text, key, at, Outer) == Join(MemberFound(ms, key, valueAt), NamedFrom(text, key, valueEnd, Outer))
    decreases ms, 0
  {
    hide NamedFrom, NamedIn, NamedValue, SkipSpace, Print;
    var valueAt := at + |KeyPart(ms)|;
    NamedKey(text, key, at, ms);
    if Named(ms, key) {
      EndInText(text, valueAt, ms.value);
    } else {
      var close := at + |ms.before| + |Raw(ms.key)| + 1;
      QuietGlue(ms.afterKey, ms.beforeValue);
      NamedQuiet(text, key, close + 1, ms.afterKey + ":" + ms.beforeValue);
      NamedInValue(text, key, valueAt, ms.value);
    }
  }

  lemma FirstChar(text: string, at: nat, v: Json)
    requires Valid(v) && Here(text, at, Print(v))
    ensures at < |text| && !IsBlank(text[at]) && (text[at] == '[' <==> v.Arr?)
  {
    HereAt(text, at, Print(v), 0);
    if v.Scalar? {
      assert !Structural(v.text[0]);
    }
  }

  lemma EndInText(text: string, at: nat, v: Json)
    requires Valid(v) && (v.Obj? || v.Arr?) && Here(text, at, Print(v))
    ensures at < |text| && ContainerEnd(text, at) == Ok(at + |Print(v)|)
  {
    hide ContainerEnd;
    var end := at + |Print(v)|;
    FirstChar(text, at, v);
    assert text == text[..at] + Print(v) + text[end..];
    EndOfContainer(text[..at], v, text[end..]);
  }

  /** On a printed document the name search returns exactly the tree's arrays of that name. */
  lemma NamedArraysOfDocument(margin: string, v: Json, trailer: string, key: string)
    requires Blank(margin) && Blank(trailer) && Valid(v)
    ensures NamedFrom(margin + Print(v) + trailer, key, 0, Outer) == Ok(NamedIn(v, key, |margin|))
  {
    hide NamedFrom, Print;
    var text := margin + Print(v) + trailer;
    var end := |margin| + |Print(v)|;
    assert Here(text, 0, margin) && Here(text, |margin|, Print(v)) && Here(text, end, trailer);
    BlankIsQuiet(margin);
    BlankIsQuiet(trailer);
    NamedQuiet(text, key, 0, margin);
    SkipBlank(text, end, trailer);
    NamedInValue(text, key, |margin|, v);
    NamedQuiet(text, key, end, trailer);
    NamedAtEnd(text, key);
    assert NamedIn(v, key, |margin|) + [] == NamedIn(v, key, |margin|);
  }

  lemma NamedAtEnd(text: string, key: string)
    ensures NamedFrom(text, key, |text|, Outer) == Ok([])
  {}
}

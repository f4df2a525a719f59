/** Path ownership of parallel build lanes: which lanes may run together, and which changed paths each may make. */
module Lanes {
  import opened Outcomes
  import opened Text

  datatype Lane = Lane(id: string, branch: string, allowed: seq<string>, forbidden: seq<string>)

  // ---- normalisation ----

  /** Drops every leading dot and slash. */
  function Undotted(s: string): string { if s != "" && s[0] in "./" then Undotted(s[1..]) else s }

  function WithoutSlashes(s: string): string { if s != "" && s[|s| - 1] == '/' then WithoutSlashes(s[..|s| - 1]) else s }

  predicate IsWildcard(c: char) { c in "*?[" }

  function FirstWildcard(s: string): (k: nat)
    ensures k <= |s| && (k < |s| ==> IsWildcard(s[k])) && forall i :: 0 <= i < k ==> !IsWildcard(s[i])
  {
    if s == "" || IsWildcard(s[0]) then 0 else FirstWildcard(s[1..]) + 1
  }

  /** The literal directory or file a pattern's matches lie under. */
  function OwnershipRoot(pattern: string): string {
    var normal := Undotted(Strip(Slashed(pattern)));
    WithoutSlashes(normal[..FirstWildcard(normal)])
  }

  predicate RootsOverlap(a: string, b: string) {
    a == "" || b == "" || a == b || StartsWith(a, b + "/") || StartsWith(b, a + "/")
  }

  predicate Conflict(a: Lane, b: Lane) {
    exists i, j :: 0 <= i < |a.allowed| && 0 <= j < |b.allowed| && RootsOverlap(OwnershipRoot(a.allowed[i]), OwnershipRoot(b.allowed[j]))
  }

  datatype LaneConflict = IdsRepeat | BranchesRepeat | OwnershipOverlaps

  /** Why lanes may not run together, if they may not. */
  function Incompatibility(lanes: seq<Lane>): Option<LaneConflict> {
    if exists i, j :: 0 <= i < j < |lanes| && lanes[i].id == lanes[j].id then Some(IdsRepeat)
    else if exists i, j :: 0 <= i < j < |lanes| && lanes[i].branch == lanes[j].branch then Some(BranchesRepeat)
    else if exists i, j :: 0 <= i < j < |lanes| && Conflict(lanes[i], lanes[j]) then Some(OwnershipOverlaps)
    else None
  }

  // ---- matching ----

  /** Where the closing bracket of a class is looked for: after a negation and a bracket that comes first. */
  function ClassStart(p: string): nat
    requires p != "" && p[0] == '['
  {
    var i := if 1 < |p| && p[1] == '!' then 2 else 1;
    if i < |p| && p[i] == ']' then i + 1 else i
  }

  function FindBracket(p: string, i: nat): (j: nat)
    requires i <= |p|
    ensures i <= j <= |p| && (j < |p| ==> p[j] == ']')
    decreases |p| - i
  {
    if i == |p| || p[i] == ']' then i else FindBracket(p, i + 1)
  }

  predicate InRanges(body: string, c: char) {
    if body == "" then false
    else if |body| >= 3 && body[1] == '-' then body[0] <= c <= body[2] || InRanges(body[3..], c)
    else c == body[0] || InRanges(body[1..], c)
  }

  predicate InClass(body: string, c: char) {
    if body != "" && body[0] == '!' then !InRanges(body[1..], c) else InRanges(body, c)
  }

  /** Shell-style matching of a whole string; a star also matches slashes, an unclosed bracket is literal. */
  predicate Matches(p: string, s: string)
    decreases |p| + |s|
  {
    if p == "" then s == ""
    else if p[0] == '*' then Matches(p[1..], s) || (s != "" && Matches(p, s[1..]))
    else if s == "" then false
    else if p[0] == '?' then Matches(p[1..], s[1..])
    else if p[0] == '[' && ClassStart(p) <= |p| && FindBracket(p, ClassStart(p)) < |p| then
      var close := FindBracket(p, ClassStart(p));
      InClass(p[1..close], s[0]) && Matches(p[close + 1..], s[1..])
    else p[0] == s[0] && Matches(p[1..], s[1..])
  }

  predicate EndsWith(s: string, suffix: string) { |suffix| <= |s| && s[|s| - |suffix|..] == suffix }

  /** Whether a path is the directory or file named, or lies under it. */
  predicate Under(path: string, root: string) { path == root || StartsWith(path, root + "/") }

  predicate PathMatches(pattern: string, path: string) {
    var p, s := Undotted(Slashed(pattern)), Undotted(Slashed(path));
    if EndsWith(p, "/**") then Under(s, WithoutSlashes(p[..|p| - 3])) else Matches(p, s)
  }

  /** A changed path is accepted when no forbidden pattern matches it and some allowed pattern does. */
  predicate Accepts(lane: Lane, path: string) {
    && (forall i :: 0 <= i < |lane.forbidden| ==> !PathMatches(lane.forbidden[i], path))
    && exists i :: 0 <= i < |lane.allowed| && PathMatches(lane.allowed[i], path)
  }

  // ---- when disjointness is sound ----

  /** A pattern without surrounding blanks whose first wildcard, if it has one, starts a path segment. */
  predicate Tidy(pattern: string) {
    var p := Undotted(Slashed(pattern));
    var k := FirstWildcard(p);
    Strip(pattern) == pattern && (k == |p| || k == 0 || p[k - 1] == '/')
  }

  /** A match begins with the pattern's literal part, and is that part when the pattern is all literal. */
  lemma {:induction false} MatchesLiteral(p: string, s: string)
    requires Matches(p, s)
    ensures StartsWith(s, p[..FirstWildcard(p)])
    ensures FirstWildcard(p) == |p| ==> s == p
  {
    if p != "" && !IsWildcard(p[0]) {
      MatchesLiteral(p[1..], s[1..]);
      var k := FirstWildcard(p[1..]);
      assert p[..k + 1] == [p[0]] + p[1..][..k];
      assert s[..k + 1] == [s[0]] + s[1..][..k];
      assert k == |p[1..]| ==> s == [s[0]] + s[1..] && p == [p[0]] + p[1..];
    }
  }

  lemma {:induction false} SlashesGone(s: string)
    ensures |WithoutSlashes(s)| <= |s| && StartsWith(s, WithoutSlashes(s))
    ensures |WithoutSlashes(s)| < |s| ==> s[|WithoutSlashes(s)|] == '/'
    ensures forall i :: 0 <= i < |s| && s[i] != '/' ==> i < |WithoutSlashes(s)|
    ensures s != "" && s[|s| - 1] == '/' ==> |WithoutSlashes(s)| < |s|
    ensures (s == "" || s[|s| - 1] != '/') ==> WithoutSlashes(s) == s
  {
    if s != "" && s[|s| - 1] == '/' {
      var t := s[..|s| - 1];
      SlashesGone(t);
      var r := WithoutSlashes(t);
      assert s[..|r|] == t[..|r|];
    }
  }

  /** Whatever begins with a literal part that ends in slashes lies under that part without them. */
  lemma LiteralIsRoot(s: string, part: string)
    requires StartsWith(s, part) && part != "" && part[|part| - 1] == '/'
    ensures Under(s, WithoutSlashes(part))
  {
    SlashesGone(part);
    var root := WithoutSlashes(part);
    assert part[..|root| + 1] == root + "/" by {
      assert part[..|root|] == root && part[|root|] == '/';
    }
    assert s[..|root| + 1] == part[..|root| + 1] by {
      assert s[..|part|][..|root| + 1] == s[..|root| + 1];
    }
  }

  lemma {:induction false} SlashingKeepsBlanks(s: string)
    requires Strip(s) == s
    ensures Strip(Slashed(s)) == Slashed(s)
  {
    if s != "" {
      StripFixed(s);
      var t := Slashed(s);
      assert !IsBlank(t[0]) && !IsBlank(t[|t| - 1]);
    }
  }

  /** A string that stripping leaves alone has no blank at either end. */
  lemma StripFixed(s: string)
    requires Strip(s) == s && s != ""
    ensures !IsBlank(s[0]) && !IsBlank(s[|s| - 1])
  {
    StripLeftShorter(s);
    StripRightShorter(StripLeft(s));
    if IsBlank(s[|s| - 1]) {
      assert StripLeft(s) == s;
      StripRightShorter(s[..|s| - 1]);
    }
    if IsBlank(s[0]) {
      StripLeftShorter(s[1..]);
    }
  }

  lemma {:induction false} StripLeftShorter(s: string)
    ensures |StripLeft(s)| <= |s| && (|StripLeft(s)| == |s| ==> StripLeft(s) == s)
  {
    if s != "" && IsBlank(s[0]) {
      StripLeftShorter(s[1..]);
    }
  }

  lemma {:induction false} StripRightShorter(s: string)
    ensures |StripRight(s)| <= |s| && (|StripRight(s)| == |s| ==> StripRight(s) == s)
  {
    if s != "" && IsBlank(s[|s| - 1]) {
      StripRightShorter(s[..|s| - 1]);
    }
  }

  /** Every path a tidy pattern matches lies under its ownership root. */
  lemma MatchIsUnderRoot(pattern: string, path: string)
    requires Tidy(pattern) && OwnershipRoot(pattern) != "" && PathMatches(pattern, path)
    ensures Under(Undotted(Slashed(path)), OwnershipRoot(pattern))
  {
    SlashingKeepsBlanks(pattern);
    var p, s := Undotted(Slashed(pattern)), Undotted(Slashed(path));
    assert OwnershipRoot(pattern) == WithoutSlashes(p[..FirstWildcard(p)]);
    assert p[..0] == "" && WithoutSlashes("") == "";
    hide Strip, Slashed, Undotted, Matches, Under, WithoutSlashes, FirstWildcard, OwnershipRoot;
    if EndsWith(p, "/**") {
      TreeSuffix(p);
      TreePatternIsUnderRoot(p, s);
    } else {
      GlobIsUnderRoot(p, s);
    }
  }

  lemma GlobIsUnderRoot(p: string, s: string)
    requires Matches(p, s)
    requires FirstWildcard(p) == |p| || (FirstWildcard(p) > 0 && p[FirstWildcard(p) - 1] == '/')
    ensures Under(s, WithoutSlashes(p[..FirstWildcard(p)]))
  {
    var k := FirstWildcard(p);
    MatchesLiteral(p, s);
    hide Matches, WithoutSlashes, Under, FirstWildcard;
    if k < |p| {
      LiteralIsRoot(s, p[..k]);
    } else {
      assert p[..k] == p && s == p;
      LiteralUnderItself(p);
    }
  }

  lemma LiteralUnderItself(p: string)
    ensures Under(p, WithoutSlashes(p))
  {
    SlashesGone(p);
    if p != "" && p[|p| - 1] == '/' {
      LiteralIsRoot(p, p);
    }
  }

  lemma PrefixIsUnder(s: string, root: string)
    requires Under(s, root)
    ensures StartsWith(s, root)
  {
    if s != root {
      assert s[..|root|] == s[..|root| + 1][..|root|];
    }
  }

  lemma TreeSuffix(p: string)
    requires EndsWith(p, "/**")
    ensures |p| >= 3 && p[|p| - 3] == '/' && p[|p| - 2] == '*' && FirstWildcard(p) <= |p| - 2
  {
    assert p[|p| - 3..][0] == p[|p| - 3] && p[|p| - 3..][1] == p[|p| - 2];
  }

  /** The pattern ends in a tree wildcard: what precedes it is taken literally, further wildcards included. */
  lemma TreePatternIsUnderRoot(p: string, s: string)
    requires EndsWith(p, "/**") && Under(s, WithoutSlashes(p[..|p| - 3]))
    requires FirstWildcard(p) > 0 && p[FirstWildcard(p) - 1] == '/'
    ensures Under(s, WithoutSlashes(p[..FirstWildcard(p)]))
  {
    TreeSuffix(p);
    hide Under, EndsWith, WithoutSlashes, StartsWith, FirstWildcard;
    TreeBelow(p, s, FirstWildcard(p));
  }

  lemma TreeBelow(p: string, s: string, k: nat)
    requires |p| >= 3 && 0 < k <= |p| - 2 && p[|p| - 3] == '/' && p[k] != '/' && p[k - 1] == '/'
    requires Under(s, WithoutSlashes(p[..|p| - 3]))
    ensures Under(s, WithoutSlashes(p[..k]))
  {
    hide Under, WithoutSlashes, StartsWith;
    var n := |p|;
    var stem := p[..n - 3];
    if k == n - 2 {
      assert p[..k] == stem + [p[n - 3]];
      StemIsRoot(stem);
    } else {
      assert k != n - 3;
      WildStem(p, s, k);
    }
  }

  lemma StemIsRoot(stem: string)
    ensures WithoutSlashes(stem + "/") == WithoutSlashes(stem)
  {
    assert (stem + "/")[..|stem|] == stem;
  }

  lemma WildStem(p: string, s: string, k: nat)
    requires |p| >= 3 && 0 < k < |p| - 3 && p[k - 1] == '/' && p[k] != '/'
    requires Under(s, WithoutSlashes(p[..|p| - 3]))
    ensures Under(s, WithoutSlashes(p[..k]))
  {
    var stem := p[..|p| - 3];
    var root := WithoutSlashes(stem);
    SlashesGone(stem);
    assert stem[k] == p[k] && |root| > k;
    PrefixIsUnder(s, root);
    hide Under, WithoutSlashes;
    assert s[..k] == s[..|root|][..k] == root[..k];
    assert root[..k] == stem[..|root|][..k] == stem[..k] == p[..k];
    assert p[..k][k - 1] == '/';
    LiteralIsRoot(s, p[..k]);
  }

  lemma TwoRootsOverlap(s: string, a: string, b: string)
    requires Under(s, a) && Under(s, b)
    ensures RootsOverlap(a, b)
  {
    if s == a && s == b {
    } else if s == a {
      assert StartsWith(a, b + "/");
    } else if s == b {
      assert StartsWith(b, a + "/");
    } else {
      assert StartsWith(s, a + "/") && StartsWith(s, b + "/");
      if |a| == |b| {
        assert a == s[..|a| + 1][..|a|] == s[..|b| + 1][..|b|] == b;
      } else if |a| < |b| {
        PrefixOfPrefix(s, b, a);
      } else {
        PrefixOfPrefix(s, a, b);
      }
    }
  }

  lemma PrefixOfPrefix(s: string, long: string, short: string)
    requires StartsWith(s, long + "/") && StartsWith(s, short + "/") && |short| < |long|
    ensures StartsWith(long, short + "/")
  {
    assert long == s[..|long| + 1][..|long|];
    assert long[..|short| + 1] == s[..|long|][..|short| + 1] == s[..|short| + 1];
  }

  /** Lanes that are admitted together and use tidy patterns never both accept a changed path. */
  lemma CompatibleLanesAreDisjoint(lanes: seq<Lane>, i: int, j: int, path: string)
    requires Incompatibility(lanes).None? && 0 <= i < j < |lanes|
    requires forall k :: 0 <= k < |lanes[i].allowed| ==> Tidy(lanes[i].allowed[k])
    requires forall k :: 0 <= k < |lanes[j].allowed| ==> Tidy(lanes[j].allowed[k])
    ensures !(Accepts(lanes[i], path) && Accepts(lanes[j], path))
  {
    hide Tidy, OwnershipRoot, RootsOverlap, PathMatches;
    var a, b := lanes[i], lanes[j];
    assert !Conflict(a, b);
    if Accepts(a, path) && Accepts(b, path) {
      var m :| 0 <= m < |a.allowed| && PathMatches(a.allowed[m], path);
      var n :| 0 <= n < |b.allowed| && PathMatches(b.allowed[n], path);
      assert !RootsOverlap(OwnershipRoot(a.allowed[m]), OwnershipRoot(b.allowed[n]));
      SharedPathOverlaps(a.allowed[m], b.allowed[n], path);
    }
  }

  lemma SharedPathOverlaps(a: string, b: string, path: string)
    requires Tidy(a) && Tidy(b) && PathMatches(a, path) && PathMatches(b, path)
    ensures RootsOverlap(OwnershipRoot(a), OwnershipRoot(b))
  {
    hide Tidy, PathMatches, Under, OwnershipRoot;
    if OwnershipRoot(a) != "" && OwnershipRoot(b) != "" {
      MatchIsUnderRoot(a, path);
      MatchIsUnderRoot(b, path);
      TwoRootsOverlap(Undotted(Slashed(path)), OwnershipRoot(a), OwnershipRoot(b));
    }
  }

  // ---- and when it is not ----

  /** A plain relative path: nothing to normalise, no wildcard, and no slash at its end. */
  predicate Plain(s: string) {
    && s != "" && s[0] !in "./" && s[|s| - 1] != '/' && !IsBlank(s[0]) && !IsBlank(s[|s| - 1])
    && forall i :: 0 <= i < |s| ==> s[i] != '\\' && !IsWildcard(s[i])
  }

  lemma PlainIsNormal(s: string)
    requires s != "" && s[0] !in "./" && !IsBlank(s[0]) && !IsBlank(s[|s| - 1]) && forall i :: 0 <= i < |s| ==> s[i] != '\\'
    ensures Slashed(s) == s && Strip(s) == s && Undotted(s) == s
  {
    assert Slashed(s) == s;
  }

  lemma NoTree(s: string)
    requires |s| >= 2 && (s[|s| - 1] != '*' || s[|s| - 2] != '*')
    ensures !EndsWith(s, "/**")
  {}

  lemma RootOfStar(name: string)
    requires Plain(name)
    ensures OwnershipRoot(name + "*") == name
  {
    var star := name + "*";
    PlainIsNormal(star);
    hide Strip, Slashed, Undotted;
    assert FirstWildcard(star) == |name| && star[..|name|] == name;
  }

  lemma RootOfPlain(name: string)
    requires Plain(name)
    ensures OwnershipRoot(name) == name
  {
    PlainIsNormal(name);
    hide Strip, Slashed, Undotted;
    assert FirstWildcard(name) == |name| && name[..|name|] == name;
  }

  lemma ExtendedNameIsApart(name: string, x: char)
    requires Plain(name) && Plain(name + [x])
    ensures !RootsOverlap(name, name + [x])
  {
    var longer := name + [x];
    assert x != '/' by { assert longer[|longer| - 1] == x; }
    assert longer[..|name| + 1] == longer;
    assert longer != name + "/" by { assert (name + "/")[|name|] == '/' && longer[|name|] == x; }
  }

  /** A path whose matches under a pattern its ownership root does not cover is shared with an admitted lane. */
  lemma UncoveredIsShared(pattern: string, s: string)
    requires Named(s) && PathMatches(pattern, s) && !RootsOverlap(OwnershipRoot(pattern), s)
    ensures
      var b := Lane("b", "branch-b", ["./" + s + "/**"], []);
      SoundLane(b) && Incompatibility([Single(pattern), b]).None? && Accepts(Single(pattern), s) && Accepts(b, s)
  {
    var tree := "./" + s + "/**";
    TreeOfName(s);
    TidyIsSound(tree);
    hide PathMatches, OwnershipRoot, RootsOverlap, Tidy, SoundPattern, Named;
    OnePatternAccepts(Single(pattern), s);
    OnePatternAccepts(Lane("b", "branch-b", [tree], []), s);
    OnePatternEachAdmits(Single(pattern), Lane("b", "branch-b", [tree], []));
  }

  /** The lane that owns one pattern and forbids nothing. */
  function Single(pattern: string): Lane { Lane("a", "branch-a", [pattern], []) }

  /** No blank around the pattern, and no wildcard that goes on within the segment of its root. */
  ghost predicate SoundPattern(pattern: string) { Strip(pattern) == pattern && !Leaks(pattern) }

  ghost predicate SoundLane(lane: Lane) { forall i :: 0 <= i < |lane.allowed| ==> SoundPattern(lane.allowed[i]) }

  predicate PathChar(c: char) { c != '\\' && !IsWildcard(c) }

  predicate EndChar(c: char) { PathChar(c) && c != '/' }

  /** No wildcard or backslash, and no slash at the end. */
  predicate PlainTail(s: string) { (forall i :: 0 <= i < |s| ==> PathChar(s[i])) && (s != "" ==> EndChar(s[|s| - 1])) }

  /** A path in normal form, blanks allowed anywhere. */
  predicate Named(s: string) { s != "" && s[0] !in "./" && PlainTail(s) }

  lemma NamedIsNormal(s: string)
    requires Named(s)
    ensures Slashed(s) == s && Undotted(s) == s
  {
    assert Slashed(s) == s;
  }

  lemma TidyIsSound(pattern: string)
    requires Tidy(pattern)
    ensures SoundPattern(pattern)
  {
    hide GoesOn, Strip;
  }

  lemma TreeOfName(s: string)
    requires Named(s)
    ensures var tree := "./" + s + "/**"; Tidy(tree) && OwnershipRoot(tree) == s && PathMatches(tree, s)
  {
    var tree, p := "./" + s + "/**", s + "/**";
    NormalTree(s);
    assert Normal(tree) == p && Strip(tree) == tree;
    hide Strip, Slashed, Undotted;
    WildcardAfter(s, "/**");
    assert p[..|s| + 1] == s + "/" && p[|s|] == '/';
    StemIsRoot(s);
    SlashesGone(s);
    assert EndsWith(p, "/**") && p[..|p| - 3] == s;
    NamedIsNormal(s);
  }

  lemma NormalTree(s: string)
    requires Named(s)
    ensures var tree := "./" + s + "/**"; Slashed(tree) == tree && Strip(tree) == tree && Undotted(tree) == s + "/**"
  {
    var tree, p := "./" + s + "/**", s + "/**";
    assert Slashed(tree) == tree;
    assert tree[1..][1..] == p && p[0] == s[0];
    assert Undotted(tree) == Undotted(tree[1..]) == Undotted(tree[1..][1..]) == p;
  }

  lemma {:induction false} WildcardAfter(lit: string, rest: string)
    requires rest == "/**" && forall i :: 0 <= i < |lit| ==> !IsWildcard(lit[i])
    ensures FirstWildcard(lit + rest) == |lit| + 1
  {
    if lit == "" {
      assert lit + rest == rest && rest[0] == '/' && rest[1..] == "**" && IsWildcard(rest[1..][0]);
      assert FirstWildcard(rest[1..]) == 0;
    } else {
      WildcardAfter(lit[1..], rest);
      assert (lit + rest)[1..] == lit[1..] + rest;
    }
  }

  /** On every path, in normal form or not, that names something: no admitted lane of sound patterns accepts it too. */
  ghost predicate Apart(pattern: string) {
    forall b: Lane, path: string | SoundLane(b) && Named(Normal(path)) && Incompatibility([Single(pattern), b]).None? ::
      !(Accepts(Single(pattern), path) && Accepts(b, path))
  }

  function Normal(path: string): string { Undotted(Slashed(path)) }

  /** The ownership root overlaps every path the pattern matches. */
  ghost predicate Covered(pattern: string) {
    forall s: string | Named(s) && PathMatches(pattern, s) :: RootsOverlap(OwnershipRoot(pattern), s)
  }

  /** A pattern shares no path with any admitted lane of sound patterns exactly when its root overlaps whatever it matches. */
  lemma ApartIsCovered(pattern: string)
    ensures Apart(pattern) <==> Covered(pattern)
  {
    if !Covered(pattern) {
      var s: string :| Named(s) && PathMatches(pattern, s) && !RootsOverlap(OwnershipRoot(pattern), s);
      UncoveredIsNotApart(pattern, s);
    }
    if Covered(pattern) {
      forall b: Lane, path: string | SoundLane(b) && Named(Normal(path)) && Incompatibility([Single(pattern), b]).None?
        ensures !(Accepts(Single(pattern), path) && Accepts(b, path))
      {
        if Accepts(Single(pattern), path) && Accepts(b, path) {
          CoveredIsNotShared(pattern, b, path);
        }
      }
    }
  }

  lemma UncoveredIsNotApart(pattern: string, s: string)
    requires Named(s) && PathMatches(pattern, s) && !RootsOverlap(OwnershipRoot(pattern), s)
    ensures !Apart(pattern)
  {
    UncoveredIsShared(pattern, s);
    assert Named(Normal(s)) by { NamedIsNormal(s); }
    hide PathMatches, OwnershipRoot, RootsOverlap, Named, Normal, Accepts, Incompatibility, SoundLane, Apart;
    SharedIsNotApart(pattern, Lane("b", "branch-b", ["./" + s + "/**"], []), s);
  }

  lemma SharedIsNotApart(pattern: string, b: Lane, path: string)
    requires SoundLane(b) && Named(Normal(path)) && Incompatibility([Single(pattern), b]).None?
    requires Accepts(Single(pattern), path) && Accepts(b, path)
    ensures !Apart(pattern)
  {
    hide Accepts, Incompatibility, SoundLane, Normal, Named;
  }

  lemma NormalIsSame(pattern: string, path: string)
    requires Named(Normal(path))
    ensures PathMatches(pattern, path) == PathMatches(pattern, Normal(path))
  {
    NamedIsNormal(Normal(path));
  }

  lemma CoveredIsNotShared(pattern: string, b: Lane, path: string)
    requires Covered(pattern) && SoundLane(b) && Named(Normal(path))
    requires Accepts(Single(pattern), path) && Accepts(b, path)
    ensures Incompatibility([Single(pattern), b]).Some?
  {
    hide SoundPattern, Slashed, Undotted;
    var s, root := Normal(path), OwnershipRoot(pattern);
    var n :| 0 <= n < |b.allowed| && PathMatches(b.allowed[n], path);
    var q := b.allowed[n];
    assert PathMatches(pattern, s) by { NormalIsSame(pattern, path); }
    assert RootsOverlap(root, s);
    hide Covered, PathMatches, Named, OwnershipRoot, RootsOverlap, Accepts, Incompatibility;
    OverlapReaches(root, q, path);
    OverlapConflicts(pattern, b, n);
  }

  lemma OverlapReaches(root: string, q: string, path: string)
    requires SoundPattern(q) && Named(Normal(path)) && PathMatches(q, path) && RootsOverlap(root, Normal(path))
    ensures RootsOverlap(root, OwnershipRoot(q))
  {
    hide SoundPattern, PathMatches, OwnershipRoot, Normal;
    if root != "" && OwnershipRoot(q) != "" {
      SoundMatchIsUnderRoot(q, path);
      assert Normal(path) != "";
      hide RootsOverlap, Under, Named;
      OverlapBelow(root, Normal(path), OwnershipRoot(q));
    }
  }

  lemma OverlapConflicts(pattern: string, b: Lane, n: int)
    requires 0 <= n < |b.allowed| && RootsOverlap(OwnershipRoot(pattern), OwnershipRoot(b.allowed[n]))
    ensures Incompatibility([Single(pattern), b]).Some?
  {
    hide RootsOverlap, OwnershipRoot;
    assert Single(pattern).allowed[0] == pattern;
    assert Conflict(Single(pattern), b);
    assert [Single(pattern), b][0] == Single(pattern) && [Single(pattern), b][1] == b;
  }

  /** What overlaps a path overlaps whatever the path lies under. */
  lemma OverlapBelow(root: string, s: string, other: string)
    requires root != "" && s != "" && RootsOverlap(root, s) && Under(s, other)
    ensures RootsOverlap(root, other)
  {
    if Under(root, s) {
      UnderIsTransitive(root, s, other);
    } else {
      TwoRootsOverlap(s, root, other);
    }
  }

  lemma UnderIsTransitive(a: string, b: string, c: string)
    requires Under(a, b) && Under(b, c)
    ensures Under(a, c)
  {
    if a != b && b != c {
      assert a[..|c| + 1] == a[..|b|][..|c| + 1];
    }
  }

  // ---- the same, read off the pattern ----

  /** The close of the class a pattern begins with, if it begins with one. */
  predicate OpensClass(p: string) { p != "" && p[0] == '[' && ClassStart(p) <= |p| && FindBracket(p, ClassStart(p)) < |p| }

  function ClassEnd(p: string): (k: nat)
    requires OpensClass(p)
    ensures 1 <= k < |p|
  {
    FindBracket(p, ClassStart(p))
  }

  /** A character for this place of a path: any path character, but no slash at the end. */
  predicate MayStand(c: char, last: bool) { PathChar(c) && (last ==> c != '/') }

  /** Every class has a usable character and every literal is one: some path matches. */
  ghost predicate Fillable(p: string) {
    if p == "" then true
    else if p[0] == '*' || p[0] == '?' then Fillable(p[1..])
    else if OpensClass(p) then
      var rest := p[ClassEnd(p) + 1..];
      (exists c: char :: MayStand(c, rest == "") && InClass(p[1..ClassEnd(p)], c)) && Fillable(rest)
    else MayStand(p[0], |p| == 1) && Fillable(p[1..])
  }

  /** From a wildcard on, the pattern matches something that goes on within the segment. */
  ghost predicate GoesOn(p: string)
    requires p != "" && IsWildcard(p[0])
  {
    if p[0] == '*' || p[0] == '?' then Fillable(p[1..])
    else
      OpensClass(p)
      && var rest := p[ClassEnd(p) + 1..];
         (exists c: char :: EndChar(c) && InClass(p[1..ClassEnd(p)], c)) && Fillable(rest)
  }

  /** The first wildcard comes inside a segment, no tree wildcard ends the pattern, and the wildcard goes on within the segment. */
  ghost predicate Leaks(pattern: string) {
    var p := Normal(pattern);
    var k := FirstWildcard(p);
    0 < k < |p| && p[k - 1] != '/' && !EndsWith(p, "/**") && GoesOn(p[k..])
  }

  lemma {:induction false} Filling(p: string) returns (t: string)
    requires Fillable(p)
    ensures Matches(p, t) && PlainTail(t) && (p != "" ==> t != "")
    decreases |p|
  {
    if p == "" {
      t := "";
    } else if p[0] == '*' {
      var rest := Filling(p[1..]);
      t := "x" + rest;
      assert t[1..] == rest && Matches(p, rest);
      TailGrows('x', rest);
    } else if p[0] == '?' {
      var rest := Filling(p[1..]);
      t := "x" + rest;
      assert t[1..] == rest;
      TailGrows('x', rest);
    } else if OpensClass(p) {
      var after := p[ClassEnd(p) + 1..];
      var c: char :| MayStand(c, after == "") && InClass(p[1..ClassEnd(p)], c);
      var rest := Filling(after);
      t := [c] + rest;
      assert t[1..] == rest;
      TailGrows(c, rest);
    } else {
      var rest := Filling(p[1..]);
      t := [p[0]] + rest;
      assert t[1..] == rest;
      TailGrows(p[0], rest);
    }
  }

  lemma TailGrows(c: char, rest: string)
    requires PlainTail(rest) && MayStand(c, rest == "")
    ensures PlainTail([c] + rest)
  {
    var t := [c] + rest;
    if rest != "" {
      assert t[|t| - 1] == rest[|rest| - 1];
    }
  }

  lemma {:induction false} MatchIsFillable(p: string, s: string)
    requires Matches(p, s) && PlainTail(s)
    ensures Fillable(p)
    decreases |p| + |s|
  {
    if p == "" {
    } else if p[0] == '*' {
      if Matches(p[1..], s) {
        MatchIsFillable(p[1..], s);
      } else {
        TailShrinks(s);
        MatchIsFillable(p, s[1..]);
      }
    } else {
      TailShrinks(s);
      if p[0] == '?' {
        MatchIsFillable(p[1..], s[1..]);
      } else if OpensClass(p) {
        var rest := p[ClassEnd(p) + 1..];
        MatchIsFillable(rest, s[1..]);
        assert MayStand(s[0], rest == "") && InClass(p[1..ClassEnd(p)], s[0]);
      } else {
        MatchIsFillable(p[1..], s[1..]);
      }
    }
  }

  lemma TailShrinks(s: string)
    requires PlainTail(s) && s != ""
    ensures PlainTail(s[1..]) && PathChar(s[0]) && (s[1..] == "" ==> s[0] != '/')
  {}

  lemma {:induction false} AfterLiteral(p: string, s: string, k: nat)
    requires Matches(p, s) && k <= FirstWildcard(p)
    ensures k <= |s| && Matches(p[k..], s[k..])
    decreases k
  {
    if k == 0 {
      assert p[0..] == p && s[0..] == s;
    } else {
      AfterLiteral(p[1..], s[1..], k - 1);
      assert p[1..][k - 1..] == p[k..] && s[1..][k - 1..] == s[k..];
    }
  }

  lemma {:induction false} BeforeLiteral(lit: string, p: string, s: string)
    requires Matches(p, s) && forall i :: 0 <= i < |lit| ==> !IsWildcard(lit[i])
    ensures Matches(lit + p, lit + s)
  {
    if lit == "" {
      assert lit + p == p && lit + s == s;
    } else {
      BeforeLiteral(lit[1..], p, s);
      assert (lit + p)[1..] == lit[1..] + p && (lit + s)[1..] == lit[1..] + s;
    }
  }

  lemma {:induction false} UndottedStart(s: string)
    ensures Undotted(s) != "" ==> Undotted(s)[0] !in "./"
  {
    if s != "" && s[0] in "./" {
      UndottedStart(s[1..]);
    }
  }

  lemma {:induction false} UndottedKeeps(s: string)
    requires forall i :: 0 <= i < |s| ==> s[i] != '\\'
    ensures forall i :: 0 <= i < |Undotted(s)| ==> Undotted(s)[i] != '\\'
  {
    if s != "" && s[0] in "./" {
      UndottedKeeps(s[1..]);
    }
  }

  /** A way for the wildcard to go on, if it can. */
  lemma GoingOn(p: string) returns (t: string)
    requires p != "" && IsWildcard(p[0]) && GoesOn(p)
    ensures Matches(p, t) && PlainTail(t) && t != "" && t[0] != '/'
  {
    if p[0] == '*' || p[0] == '?' {
      var rest := Filling(p[1..]);
      t := "x" + rest;
      assert t[1..] == rest;
      assert Matches(p, rest) || p[0] == '?';
      TailGrows('x', rest);
    } else {
      var after := p[ClassEnd(p) + 1..];
      var c: char :| EndChar(c) && InClass(p[1..ClassEnd(p)], c);
      var rest := Filling(after);
      t := [c] + rest;
      assert t[1..] == rest;
      TailGrows(c, rest);
    }
  }

  lemma GoneOn(p: string, t: string)
    requires p != "" && IsWildcard(p[0]) && Matches(p, t) && PlainTail(t) && t != "" && t[0] != '/'
    ensures GoesOn(p)
  {
    MatchIsFillable(p, t);
    if p[0] == '[' {
      TailShrinks(t);
      assert OpensClass(p);
      assert EndChar(t[0]) && InClass(p[1..ClassEnd(p)], t[0]);
    }
  }

  lemma LeakIsUncovered(pattern: string)
    requires Strip(pattern) == pattern && Leaks(pattern)
    ensures !Covered(pattern)
  {
    var p := Normal(pattern);
    var k := FirstWildcard(p);
    var t := GoingOn(p[k..]);
    LiteralIsNamed(pattern, t);
    RootOfLiteral(pattern);
    LeakMatches(pattern, t);
    LongerIsApart(p[..k], t);
    hide PathMatches, OwnershipRoot, RootsOverlap, Normal, Named, Strip, Leaks;
    assert Named(p[..k] + t) && PathMatches(pattern, p[..k] + t) && !RootsOverlap(OwnershipRoot(pattern), p[..k] + t);
  }

  lemma LeakMatches(pattern: string, t: string)
    requires var p := Normal(pattern); !EndsWith(p, "/**") && Matches(p[FirstWildcard(p)..], t) && Named(p[..FirstWildcard(p)] + t)
    ensures PathMatches(pattern, Normal(pattern)[..FirstWildcard(Normal(pattern))] + t)
  {
    var p := Normal(pattern);
    var k := FirstWildcard(p);
    NamedIsNormal(p[..k] + t);
    BeforeLiteral(p[..k], p[k..], t);
    assert p[..k] + p[k..] == p;
    hide Matches, EndsWith, Named, Slashed, Undotted, FirstWildcard;
  }

  lemma LongerIsApart(lit: string, t: string)
    requires lit != "" && t != "" && t[0] != '/'
    ensures !RootsOverlap(lit, lit + t)
  {
    var s := lit + t;
    assert s[|lit|] == t[0] && (lit + "/")[|lit|] == '/';
  }

  lemma LiteralIsNamed(pattern: string, t: string)
    requires PlainTail(t) && t != ""
    requires 0 < FirstWildcard(Normal(pattern))
    ensures Named(Normal(pattern)[..FirstWildcard(Normal(pattern))] + t)
  {
    UndottedStart(Slashed(pattern));
    UndottedKeeps(Slashed(pattern));
    var p := Normal(pattern);
    var k := FirstWildcard(p);
    var s := p[..k] + t;
    assert s[|s| - 1] == t[|t| - 1];
    forall i | 0 <= i < |s| ensures PathChar(s[i]) {
      assert s[i] == if i < k then p[i] else t[i - k];
    }
  }

  /** Inside a segment, the literal part is the root. */
  lemma RootOfLiteral(pattern: string)
    requires Strip(pattern) == pattern
    requires var p := Normal(pattern); var k := FirstWildcard(p); 0 < k && p[k - 1] != '/'
    ensures OwnershipRoot(pattern) == Normal(pattern)[..FirstWildcard(Normal(pattern))]
  {
    SlashingKeepsBlanks(pattern);
    SlashesGone(Normal(pattern)[..FirstWildcard(Normal(pattern))]);
  }

  /** Every named path a sound pattern matches lies under its ownership root. */
  lemma SoundMatchIsUnderRoot(pattern: string, path: string)
    requires SoundPattern(pattern) && OwnershipRoot(pattern) != "" && Named(Normal(path)) && PathMatches(pattern, path)
    ensures Under(Normal(path), OwnershipRoot(pattern))
  {
    hide Strip;
    if Tidy(pattern) {
      MatchIsUnderRoot(pattern, path);
    } else {
      NormalIsSame(pattern, path);
      hide PathMatches, OwnershipRoot;
      UntidyMatch(pattern, Normal(path));
    }
  }

  lemma UnleakedIsCovered(pattern: string)
    requires Strip(pattern) == pattern && !Leaks(pattern)
    ensures Covered(pattern)
  {
    forall s: string | Named(s) && PathMatches(pattern, s) ensures RootsOverlap(OwnershipRoot(pattern), s) {
      NamedIsNormal(s);
      hide Strip, Slashed, Undotted, OwnershipRoot, PathMatches;
      if OwnershipRoot(pattern) != "" {
        SoundMatchIsUnderRoot(pattern, s);
      }
    }
  }

  lemma UntidyMatch(pattern: string, s: string)
    requires Strip(pattern) == pattern && !Tidy(pattern) && !Leaks(pattern) && Named(s) && PathMatches(pattern, s)
    ensures Under(s, OwnershipRoot(pattern))
  {
    NamedIsNormal(s);
    RootOfLiteral(pattern);
    hide Strip, Slashed, Undotted, OwnershipRoot, Fillable;
    var p := Normal(pattern);
    var k := FirstWildcard(p);
    if EndsWith(p, "/**") {
      WildTreeIsLiteral(p, s);
      assert false;
    } else {
      assert !GoesOn(p[k..]);
      MatchesLiteral(p, s);
      AfterLiteral(p, s, k);
      TailOf(s, k);
      hide Leaks, Tidy, PathMatches, Normal, FirstWildcard, EndsWith;
      UnleakedTail(p[..k], p[k..], s);
    }
  }

  lemma UnleakedTail(lit: string, w: string, s: string)
    requires w != "" && IsWildcard(w[0]) && !GoesOn(w) && StartsWith(s, lit) && Matches(w, s[|lit|..]) && PlainTail(s[|lit|..])
    ensures Under(s, lit)
  {
    var t := s[|lit|..];
    if t != "" && t[0] != '/' {
      GoneOn(w, t);
      assert false;
    } else if t != "" {
      assert s[..|lit| + 1] == lit + "/";
    } else {
      assert s == lit;
    }
  }

  lemma TailOf(s: string, k: nat)
    requires PlainTail(s) && k <= |s|
    ensures PlainTail(s[k..])
  {}

  /** Before a tree wildcard other wildcards are literal, so only paths that hold them are matched. */
  lemma WildTreeIsLiteral(p: string, s: string)
    requires EndsWith(p, "/**") && 0 < FirstWildcard(p) && p[FirstWildcard(p) - 1] != '/'
    requires Under(s, WithoutSlashes(p[..|p| - 3]))
    ensures FirstWildcard(p) < |s| && IsWildcard(s[FirstWildcard(p)])
  {
    TreeSuffix(p);
    var k, stem := FirstWildcard(p), p[..|p| - 3];
    assert k < |stem| && stem[k] == p[k];
    SlashesGone(stem);
    PrefixIsUnder(s, WithoutSlashes(stem));
    assert s[k] == s[..|WithoutSlashes(stem)|][k] == WithoutSlashes(stem)[k] == stem[..|WithoutSlashes(stem)|][k] == p[k];
  }

  /**
   A pattern without surrounding blanks shares no path with any admitted lane of sound patterns exactly when
   it is sound itself, which its text shows.
   */
  lemma DisjointExactly(pattern: string)
    requires Strip(pattern) == pattern
    ensures Apart(pattern) <==> !Leaks(pattern)
  {
    hide Apart, Covered, Strip, Leaks;
    ApartIsCovered(pattern);
    if Leaks(pattern) {
      LeakIsUncovered(pattern);
    } else {
      UnleakedIsCovered(pattern);
    }
  }

  /** Lanes that are admitted together and use sound patterns never both accept a path without wildcards. */
  lemma SoundLanesAreDisjoint(lanes: seq<Lane>, i: int, j: int, path: string)
    requires Incompatibility(lanes).None? && 0 <= i < j < |lanes|
    requires SoundLane(lanes[i]) && SoundLane(lanes[j]) && Named(Normal(path))
    ensures !(Accepts(lanes[i], path) && Accepts(lanes[j], path))
  {
    hide SoundPattern, OwnershipRoot, RootsOverlap, PathMatches, Named;
    var a, b := lanes[i], lanes[j];
    assert !Conflict(a, b);
    if Accepts(a, path) && Accepts(b, path) {
      var m :| 0 <= m < |a.allowed| && PathMatches(a.allowed[m], path);
      var n :| 0 <= n < |b.allowed| && PathMatches(b.allowed[n], path);
      assert !RootsOverlap(OwnershipRoot(a.allowed[m]), OwnershipRoot(b.allowed[n]));
      SharedSoundOverlaps(a.allowed[m], b.allowed[n], path);
    }
  }

  lemma SharedSoundOverlaps(a: string, b: string, path: string)
    requires SoundPattern(a) && SoundPattern(b) && Named(Normal(path)) && PathMatches(a, path) && PathMatches(b, path)
    ensures RootsOverlap(OwnershipRoot(a), OwnershipRoot(b))
  {
    hide SoundPattern, PathMatches, Under, OwnershipRoot, Named;
    if OwnershipRoot(a) != "" && OwnershipRoot(b) != "" {
      SoundMatchIsUnderRoot(a, path);
      SoundMatchIsUnderRoot(b, path);
      TwoRootsOverlap(Normal(path), OwnershipRoot(a), OwnershipRoot(b));
    }
  }

  /** Surrounding blanks defeat it too: the root is taken without them, the match with them. */
  lemma BlankIsShared(name: string, c: char)
    requires Plain(name) && IsBlank(c)
    ensures !Apart([c] + name) && !Apart(name + [c])
  {
    PlainIsNormal(name);
    PlainIsNamed(name);
    BlankStart(name, c);
    BlankEnd(name, c);
    ApartIsCovered([c] + name);
    ApartIsCovered(name + [c]);
  }

  lemma PlainIsNamed(name: string)
    requires Plain(name)
    ensures Named(name)
  {}

  /** A literal pattern matches itself, so it is uncovered when stripping it leaves a root that is no ancestor. */
  lemma LiteralIsUncovered(s: string, root: string)
    requires Named(s) && !IsWildcard(s[|s| - 1]) && OwnershipRoot(s) == root && !RootsOverlap(root, s)
    ensures !Covered(s)
  {
    NamedIsNormal(s);
    LiteralMatches(s);
    assert |s| >= 3 ==> s[|s| - 3..][2] == s[|s| - 1];
    assert !EndsWith(s, "/**");
    hide OwnershipRoot, RootsOverlap, Matches, Slashed, Undotted;
    assert PathMatches(s, s);
  }

  lemma BlankStart(name: string, c: char)
    requires Plain(name) && IsBlank(c)
    ensures !Covered([c] + name)
  {
    var s := [c] + name;
    assert s[1..] == name && s[|s| - 1] == name[|name| - 1];
    assert Named(s);
    StrippedRoot(s, name) by { PlainIsNormal(name); assert Strip(s) == Strip(name); }
    hide Strip, OwnershipRoot, Covered;
    assert !RootsOverlap(name, s) by { assert name[0] != c; }
    LiteralIsUncovered(s, name);
  }

  lemma StrippedRoot(s: string, name: string)
    requires Plain(name) && Named(s) && Strip(s) == name
    ensures OwnershipRoot(s) == name
  {
    NamedIsNormal(s);
    PlainIsNormal(name);
    RootOfPlain(name);
  }

  lemma BlankEnd(name: string, c: char)
    requires Plain(name) && IsBlank(c)
    ensures !Covered(name + [c])
  {
    var s := name + [c];
    assert s[..|s| - 1] == name;
    assert Named(s);
    StrippedRoot(s, name) by {
      PlainIsNormal(name);
      assert StripLeft(s) == s && StripLeft(name) == name;
      assert StripRight(s) == StripRight(name);
    }
    hide Strip, StripRight, StripLeft, OwnershipRoot, Covered;
    LongerIsApart(name, [c]);
    LiteralIsUncovered(s, name);
  }

  /**
   A star inside a segment breaks it, whatever the directory: lanes owning `name*` and `namex` are
   admitted together, and both accept a change to `namex`.
   */
  lemma MidSegmentStarIsShared(name: string, x: char)
    requires Plain(name) && Plain(name + [x])
    ensures
      var a := Lane("a", "branch-a", [name + "*"], []);
      var b := Lane("b", "branch-b", [name + [x]], []);
      Incompatibility([a, b]).None? && Accepts(a, name + [x]) && Accepts(b, name + [x])
  {
    var star, longer := name + "*", name + [x];
    var a, b := Lane("a", "branch-a", [star], []), Lane("b", "branch-b", [longer], []);
    RootOfStar(name);
    RootOfPlain(longer);
    ExtendedNameIsApart(name, x);
    PlainIsNormal(star);
    PlainIsNormal(longer);
    LiteralMatches(longer);
    StarMatches(name, [x]);
    assert star[|star| - 2] == name[|name| - 1];
    NoTree(star);
    NoTree(longer);
    hide Strip, Slashed, Undotted, OwnershipRoot, RootsOverlap, Matches, EndsWith, Plain;
    assert PathMatches(star, longer) && PathMatches(longer, longer);
    hide PathMatches;
    OnePatternAccepts(a, longer);
    OnePatternAccepts(b, longer);
    OnePatternEachAdmits(a, b);
  }

  lemma OnePatternAccepts(lane: Lane, path: string)
    requires lane.forbidden == [] && |lane.allowed| == 1 && PathMatches(lane.allowed[0], path)
    ensures Accepts(lane, path)
  {}

  lemma OnePatternEachAdmits(a: Lane, b: Lane)
    requires a.id != b.id && a.branch != b.branch && |a.allowed| == 1 && |b.allowed| == 1
    requires !RootsOverlap(OwnershipRoot(a.allowed[0]), OwnershipRoot(b.allowed[0]))
    ensures Incompatibility([a, b]).None?
  {
    hide RootsOverlap, OwnershipRoot;
    assert !Conflict(a, b);
  }

  lemma {:induction false} LiteralMatches(s: string)
    requires forall i :: 0 <= i < |s| ==> !IsWildcard(s[i])
    ensures Matches(s, s)
  {
    if s != "" {
      LiteralMatches(s[1..]);
    }
  }

  lemma {:induction false} StarMatches(name: string, rest: string)
    requires forall i :: 0 <= i < |name| ==> !IsWildcard(name[i])
    requires |rest| == 1
    ensures Matches(name + "*", name + rest)
  {
    if name == "" {
      assert name + "*" == "*" && name + rest == rest;
      assert rest[1..] == "" && "*"[1..] == "";
      assert Matches("*", "") by { assert Matches("", ""); }
    } else {
      StarMatches(name[1..], rest);
      assert (name + "*")[1..] == name[1..] + "*" && (name + rest)[1..] == name[1..] + rest;
    }
  }
}

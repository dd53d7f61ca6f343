/** Globs (connector/src/glob.ts): compiled to a regular expression, against a direct reading of what a glob means. */
module Glob {
  import opened Text
  import opened Wrappers
  import opened Regex

  // ----- the compiler -----

  const ESCAPED := {'.', '+', '^', '$', '{', '}', '(', ')', '|', '[', ']', '\\'}

  function Escape(c: char): (r: string) {
    if c in ESCAPED then ['\\', c] else [c]
  }

  /** How many characters of the glob the loop takes next, and the text it adds for them. */
  function Width(g: string): (n: nat)
    requires g != ""
    ensures 0 < n <= |g|
  {
    if g[0] == '*' && |g| > 1 && g[1] == '*' then if |g| > 2 && g[2] == '/' then 3 else 2 else 1
  }

  function Piece(g: string): (r: string)
    requires g != ""
  {
    if g[0] == '*' then
      match Width(g)
      case 3 => "(?:.*/)?"
      case 2 => ".*"
      case _ => "[^/]*"
    else if g[0] == '?' then "[^/]"
    else Escape(g[0])
  }

  function Body(g: string): (r: string) {
    if g == "" then "" else Piece(g) + Body(g[Width(g)..])
  }

  lemma BodyFrom(glob: string, i: nat, was: string, re: string)
    requires i < |glob| && re == was + Piece(glob[i..])
    ensures was + Body(glob[i..]) == re + Body(glob[i + Width(glob[i..])..])
  {
    hide Piece, Width;
    var rest := glob[i..];
    assert rest[Width(rest)..] == glob[i + Width(rest)..];
    assert was + (Piece(rest) + Body(rest[Width(rest)..])) == was + Piece(rest) + Body(rest[Width(rest)..]);
  }

  /** The loop over the glob. */
  method GlobToRegExp(glob: string) returns (re: string)
    ensures re == "^" + Body(glob) + "$"
  {
    hide Body;
    re := "^";
    var i := 0;
    assert glob[0..] == glob;
    while i < |glob|
      invariant 0 <= i <= |glob|
      invariant re + Body(glob[i..]) == "^" + Body(glob)
    {
      ghost var was, from := re, i;
      var c := glob[i];
      if c == '*' {
        if i + 1 < |glob| && glob[i + 1] == '*' {
          i := i + 1;
          if i + 1 < |glob| && glob[i + 1] == '/' {
            i := i + 1;
            re := re + "(?:.*/)?";
          } else {
            re := re + ".*";
          }
        } else {
          re := re + "[^/]*";
        }
      } else if c == '?' {
        re := re + "[^/]";
      } else {
        re := re + Escape(c);
      }
      i := i + 1;
      assert i == from + Width(glob[from..]);
      BodyFrom(glob, from, was, re);
    }
    assert Body(glob[|glob|..]) == "" by {
      EmptyBody(glob[|glob|..]);
    }
    re := re + "$";
  }

  lemma EmptyBody(g: string)
    requires g == ""
    ensures Body(g) == ""
  {
  }

  // ----- the text is what was meant -----

  function PieceTree(g: string): (r: Re)
    requires g != ""
  {
    if g[0] == '*' then
      match Width(g)
      case 3 => Maybe(Then(Star(Dot), Then(Lit('/'), Empty)))
      case 2 => Star(Dot)
      case _ => Star(NotChar('/'))
    else if g[0] == '?' then NotChar('/')
    else Lit(g[0])
  }

  function Tree(g: string): (r: Re) {
    if g == "" then Empty else Then(PieceTree(g), Tree(g[Width(g)..]))
  }

  /** Nothing a piece may be followed by is a quantifier or a closing bracket. */
  predicate Follows(s: string) {
    s == "" || s[0] !in {'*', '?', ')'}
  }

  lemma BodyFollows(g: string)
    ensures Follows(Body(g))
  {
  }

  lemma ParseInner(after: string)
    requires after != "" && after[0] == ')'
    ensures ParseSequence(".*/" + after) == Some(Parsed(Then(Star(Dot), Then(Lit('/'), Empty)), after))
  {
    var s1, s2 := ".*/" + after, "/" + after;
    assert s1[1..] == "*/" + after && s1[1..][1..] == s2;
    assert s2[1..] == after;
    assert ParseTerm(s2) == Some(Parsed(Lit('/'), after));
    assert ParseSequence(after) == Some(Parsed(Empty, after));
    assert ParseTerm(s1) == Some(Parsed(Star(Dot), s2));
  }

  lemma ParseGroup(after: string)
    requires Follows(after)
    ensures ParseTerm("(?:.*/)?" + after) == Some(Parsed(Maybe(Then(Star(Dot), Then(Lit('/'), Empty))), after))
  {
    hide ParseSequence;
    var s := "(?:.*/)?" + after;
    var tail := ")?" + after;
    ParseInner(tail);
    assert s[3..] == ".*/" + tail;
    assert ParseAtom(s) == Some(Parsed(Then(Star(Dot), Then(Lit('/'), Empty)), tail[1..]));
    assert tail[1..] == "?" + after && (tail[1..])[1..] == after;
  }

  lemma ParsePiece(g: string, after: string)
    requires g != "" && Follows(after)
    ensures ParseTerm(Piece(g) + after) == Some(Parsed(PieceTree(g), after))
  {
    var s := Piece(g) + after;
    if g[0] == '*' {
      if Width(g) == 3 {
        ParseGroup(after);
      } else if Width(g) == 2 {
        assert s[1..] == "*" + after && (s[1..])[1..] == after;
      } else {
        assert s[4..] == "*" + after && (s[4..])[1..] == after;
      }
    } else if g[0] == '?' {
      assert s[4..] == after;
    } else if g[0] in ESCAPED {
      assert s[2..] == after;
    } else {
      assert s[1..] == after;
    }
  }

  lemma {:induction false} ParseBody(g: string)
    ensures ParseSequence(Body(g)) == Some(Parsed(Tree(g), ""))
    decreases |g|
  {
    if g != "" {
      var rest := g[Width(g)..];
      BodyFollows(rest);
      ParseBody(rest);
      ParsePiece(g, Body(rest));
    }
  }

  // ----- what a glob means -----

  predicate NoSlash(s: string) {
    forall i :: 0 <= i < |s| ==> s[i] != '/'
  }

  /**
   Read directly: `*` is any run inside a segment, `?` one character of it, `**` any run, and a run of whole
   segments (or none) when a slash follows it; anything else stands for itself.  `cross` says which runs `**`
   may stand for.
   */
  ghost predicate Means(g: string, p: string, cross: string -> bool)
    decreases |g|
  {
    if g == "" then p == ""
    else if g[0] == '*' && Width(g) == 3 then
      || Means(g[3..], p, cross)
      || exists k :: 0 <= k < |p| && p[k] == '/' && cross(p[..k]) && Means(g[3..], p[k + 1..], cross)
    else if g[0] == '*' && Width(g) == 2 then
      exists k :: 0 <= k <= |p| && cross(p[..k]) && Means(g[2..], p[k..], cross)
    else if g[0] == '*' then
      exists k :: 0 <= k <= |p| && NoSlash(p[..k]) && Means(g[1..], p[k..], cross)
    else if g[0] == '?' then p != "" && p[0] != '/' && Means(g[1..], p[1..], cross)
    else p != "" && p[0] == g[0] && Means(g[1..], p[1..], cross)
  }

  // ----- the compiled glob matches what the glob means -----

  lemma StarDot(s: string)
    ensures Matches(Star(Dot), s) <==> OneLine(s)
  {
    StarOfClass(Dot, (c: char) => !LineTerminator(c), s);
  }

  lemma StarSegment(s: string)
    ensures Matches(Star(NotChar('/')), s) <==> NoSlash(s)
  {
    StarOfClass(NotChar('/'), (c: char) => c != '/', s);
  }

  lemma ThenIs(a: Re, b: Re, s: string)
    ensures Matches(Then(a, b), s) <==> exists k :: 0 <= k <= |s| && Matches(a, s[..k]) && Matches(b, s[k..])
  {
  }

  lemma MaybeIs(r: Re, s: string)
    ensures Matches(Maybe(r), s) <==> s == "" || Matches(r, s)
  {
  }

  const SLASH := Then(Lit('/'), Empty)

  lemma SlashIs(s: string)
    ensures Matches(SLASH, s) <==> s == "/"
  {
    if s == "/" {
      assert Matches(Lit('/'), s[..1]) && Matches(Empty, s[1..]);
    }
    if Matches(SLASH, s) {
      var k :| 0 <= k <= |s| && Matches(Lit('/'), s[..k]) && Matches(Empty, s[k..]);
      assert s == s[..k] + s[k..];
    }
  }

  lemma Segments(s: string)
    ensures Matches(Maybe(Then(Star(Dot), SLASH)), s) <==>
            s == "" || (s[|s| - 1] == '/' && OneLine(s[..|s| - 1]))
  {
    hide Matches, OneLine;
    MaybeIs(Then(Star(Dot), SLASH), s);
    ThenIs(Star(Dot), SLASH, s);
    forall k | 0 <= k <= |s|
      ensures Matches(Star(Dot), s[..k]) && Matches(SLASH, s[k..]) <==> OneLine(s[..k]) && s[k..] == "/"
    {
      StarDot(s[..k]);
      SlashIs(s[k..]);
    }
    if s != "" && s[|s| - 1] == '/' && OneLine(s[..|s| - 1]) {
      assert s[|s| - 1..] == "/";
    }
  }

  /** One piece and then the rest. */
  lemma PieceMatches(g: string, p: string, k: nat)
    requires g != "" && k <= |p|
    ensures Matches(PieceTree(g), p[..k]) <==> PieceTakes(g, p, k)
  {
    if g[0] == '*' {
      Segments(p[..k]);
      StarDot(p[..k]);
      StarSegment(p[..k]);
      if k > 0 {
        assert p[..k][..k - 1] == p[..k - 1];
      }
    }
  }

  /** The tree matches exactly the paths the glob means, a `**` staying within a line. */
  lemma {:induction false} TreeMatches(g: string, p: string)
    ensures Matches(Tree(g), p) <==> Means(g, p, OneLine)
    decreases |g|
  {
    if g != "" {
      hide Matches;
      var rest := g[Width(g)..];
      ThenIs(PieceTree(g), Tree(rest), p);
      forall k | 0 <= k <= |p| ensures Matches(Tree(rest), p[k..]) <==> Means(rest, p[k..], OneLine) {
        TreeMatches(rest, p[k..]);
      }
      forall k | 0 <= k <= |p| ensures PieceTakes(g, p, k) <==> Matches(PieceTree(g), p[..k]) {
        PieceMatches(g, p, k);
      }
      assert Matches(Tree(g), p) <==> exists k :: 0 <= k <= |p| && PieceTakes(g, p, k) && Means(rest, p[k..], OneLine);
      PieceByPiece(g, p);
    } else {
      assert Matches(Empty, p) <==> p == "";
    }
  }

  /** The next piece of the glob can take the first `k` characters. */
  predicate PieceTakes(g: string, p: string, k: nat)
    requires g != "" && k <= |p|
  {
    if g[0] == '*' && Width(g) == 3 then k == 0 || (p[k - 1] == '/' && OneLine(p[..k - 1]))
    else if g[0] == '*' && Width(g) == 2 then OneLine(p[..k])
    else if g[0] == '*' then NoSlash(p[..k])
    else if g[0] == '?' then k == 1 && p[0] != '/'
    else k == 1 && p[0] == g[0]
  }

  lemma PieceByPiece(g: string, p: string)
    requires g != ""
    ensures Means(g, p, OneLine) <==>
            exists k :: 0 <= k <= |p| && PieceTakes(g, p, k) && Means(g[Width(g)..], p[k..], OneLine)
  {
    var rest := g[Width(g)..];
    if g[0] == '*' && Width(g) == 3 {
      assert p[0..] == p;
      if k :| 0 <= k <= |p| && PieceTakes(g, p, k) && Means(rest, p[k..], OneLine) {
        if k > 0 {
          assert p[k - 1] == '/' && OneLine(p[..k - 1]) && Means(rest, p[k - 1 + 1..], OneLine);
        }
      }
      if Means(rest, p, OneLine) {
        assert PieceTakes(g, p, 0) && Means(rest, p[0..], OneLine);
      } else if Means(g, p, OneLine) {
        var k :| 0 <= k < |p| && p[k] == '/' && OneLine(p[..k]) && Means(rest, p[k + 1..], OneLine);
        assert PieceTakes(g, p, k + 1);
      }
    } else if g[0] != '*' && p != "" && Means(g, p, OneLine) {
      assert PieceTakes(g, p, 1) && Means(rest, p[1..], OneLine);
    }
  }

  /**
   The regular expression made from a glob accepts a path exactly when the glob means it, `**` staying within a line.
   */
  lemma CompiledExactly(g: string, p: string)
    ensures Accepts("^" + Body(g) + "$", p) <==> Means(g, p, OneLine)
  {
    var text := "^" + Body(g) + "$";
    assert text[1..|text| - 1] == Body(g);
    ParseBody(g);
    TreeMatches(g, p);
  }

  predicate AnyRun(s: string) {
    true
  }

  lemma {:induction false} OneLineIsNoLimit(g: string, p: string)
    requires OneLine(p)
    ensures Means(g, p, OneLine) <==> Means(g, p, AnyRun)
    decreases |g|
  {
    if g != "" {
      var rest := g[Width(g)..];
      OneLineIsNoLimit(rest, p);
      forall k | 0 <= k <= |p| ensures Means(rest, p[k..], OneLine) <==> Means(rest, p[k..], AnyRun) {
        OneLineIsNoLimit(rest, p[k..]);
      }
    }
  }

  /** On paths without line terminators `**` crosses anything: the documented meaning, exactly. */
  lemma CompiledAsDocumented(g: string, p: string)
    requires OneLine(p)
    ensures Accepts("^" + Body(g) + "$", p) <==> Means(g, p, AnyRun)
  {
    CompiledExactly(g, p);
    OneLineIsNoLimit(g, p);
  }

  /** `**` means every path, and its regular expression accepts those without line terminators. */
  lemma DoubleStar(p: string)
    ensures Means("**", p, AnyRun)
    ensures Accepts("^" + Body("**") + "$", p) <==> OneLine(p)
  {
    CompiledExactly("**", p);
    var g := "**";
    assert g[2..] == "";
    assert p[..|p|] == p && p[|p|..] == "";
    assert Means("", p[|p|..], AnyRun) && Means("", p[|p|..], OneLine);
    if Means(g, p, OneLine) {
      var k :| 0 <= k <= |p| && OneLine(p[..k]) && Means("", p[k..], OneLine);
      assert k == |p|;
    }
  }

  ghost predicate AsDocumented(g: string, p: string) {
    Accepts("^" + Body(g) + "$", p) <==> Means(g, p, AnyRun)
  }

  /** The paths on which every glob works as documented are exactly those without line terminators. */
  lemma DocumentedExactlyOnOneLine(p: string)
    ensures OneLine(p) <==> forall g :: AsDocumented(g, p)
  {
    if OneLine(p) {
      forall g ensures AsDocumented(g, p) {
        CompiledAsDocumented(g, p);
      }
    } else {
      DoubleStar(p);
      assert !AsDocumented("**", p);
    }
  }

  /** A file name may hold a line feed; `**` means it, and the regular expression does not accept it. */
  lemma DoubleStarStopsAtLine()
    ensures Means("**", "a\nb", AnyRun) && !Accepts("^" + Body("**") + "$", "a\nb")
  {
    DoubleStar("a\nb");
    assert LineTerminator("a\nb"[1]);
  }

  // ----- a glob without ** keeps the number of segments -----

  function Slashes(s: string): (n: nat) {
    if s == "" then 0 else (if s[0] == '/' then 1 else 0) + Slashes(s[1..])
  }

  predicate Plain(g: string) {
    forall i :: 0 <= i < |g| - 1 ==> !(g[i] == '*' && g[i + 1] == '*')
  }

  lemma {:induction false} NoSlashPrefix(p: string, k: nat)
    requires k <= |p| && NoSlash(p[..k])
    ensures Slashes(p) == Slashes(p[k..])
    decreases k
  {
    if k > 0 {
      assert p[..k][0] == p[0];
      assert p[1..][..k - 1] == p[..k][1..];
      NoSlashPrefix(p[1..], k - 1);
      assert p[1..][k - 1..] == p[k..];
    } else {
      assert p[0..] == p;
    }
  }

  lemma {:induction false} PlainKeepsSlashes(g: string, p: string, cross: string -> bool)
    requires Plain(g) && Means(g, p, cross)
    ensures Slashes(g) == Slashes(p)
    decreases |g|
  {
    if g != "" {
      assert Plain(g[1..]);
      if g[0] == '*' {
        var k :| 0 <= k <= |p| && NoSlash(p[..k]) && Means(g[1..], p[k..], cross);
        PlainKeepsSlashes(g[1..], p[k..], cross);
        NoSlashPrefix(p, k);
      } else {
        PlainKeepsSlashes(g[1..], p[1..], cross);
      }
    }
  }

  /** `*` and `?` stay inside a segment: a glob without `**` is matched only by paths with as many slashes. */
  lemma PlainGlobKeepsSegments(g: string, p: string)
    requires Plain(g) && Accepts("^" + Body(g) + "$", p)
    ensures Slashes(g) == Slashes(p)
  {
    CompiledExactly(g, p);
    PlainKeepsSlashes(g, p, OneLine);
  }
}

/**
 The part of JavaScript's regular expressions that globs are compiled to: literal characters, `\c`, `.`, `[^c]`,
 `(?:...)`, `*`, `?`, between `^` and `$`.  A tree, what it matches, and a parser of the text.
 */
module Regex {
  import opened Text
  import opened Wrappers

  datatype Re =
    | Empty
    | Lit(c: char)
    | Dot
    | NotChar(c: char)
    | Then(first: Re, rest: Re)
    | Star(r: Re)
    | Maybe(r: Re)

  /** Characters with a meaning of their own. */
  const SYNTAX := {'^', '$', '\\', '.', '*', '+', '?', '(', ')', '[', ']', '{', '}', '|'}

  /** The strings a tree matches from end to end. */
  ghost predicate Matches(r: Re, s: string)
    decreases r, |s|
  {
    match r
    case Empty => s == ""
    case Lit(c) => s == [c]
    case Dot => |s| == 1 && !LineTerminator(s[0])
    case NotChar(c) => |s| == 1 && s[0] != c
    case Then(a, b) => exists k :: 0 <= k <= |s| && Matches(a, s[..k]) && Matches(b, s[k..])
    case Star(a) => s == "" || exists k :: 0 < k <= |s| && Matches(a, s[..k]) && Matches(r, s[k..])
    case Maybe(a) => s == "" || Matches(a, s)
  }

  /** A tree read from the front of a text, and what is left of it. */
  datatype Parsed = Parsed(r: Re, left: string)

  /** One character, class or group. */
  function ParseAtom(s: string): (p: Option<Parsed>)
    requires s != ""
    ensures p.Some? ==> |p.value.left| < |s|
    decreases |s|, 0
  {
    if s[0] == '(' then
      if |s| > 2 && s[1] == '?' && s[2] == ':' then
        var inner := ParseSequence(s[3..]);
        if inner.Some? && inner.value.left != "" && inner.value.left[0] == ')'
        then Some(Parsed(inner.value.r, inner.value.left[1..])) else None
      else None
    else if s[0] == '[' then
      if |s| > 3 && s[1] == '^' && s[2] !in SYNTAX && s[3] == ']' then Some(Parsed(NotChar(s[2]), s[4..])) else None
    else if s[0] == '.' then Some(Parsed(Dot, s[1..]))
    else if s[0] == '\\' then
      if |s| > 1 && s[1] in SYNTAX then Some(Parsed(Lit(s[1]), s[2..])) else None
    else if s[0] in SYNTAX then None
    else Some(Parsed(Lit(s[0]), s[1..]))
  }

  /** An atom with the quantifier after it, if any; a second quantifier is not of this part of the language. */
  function ParseTerm(s: string): (p: Option<Parsed>)
    requires s != ""
    ensures p.Some? ==> |p.value.left| < |s|
    decreases |s|, 1
  {
    var atom := ParseAtom(s);
    if atom.None? then None
    else
      var left := atom.value.left;
      if left == "" || (left[0] != '*' && left[0] != '?') then atom
      else if |left| > 1 && (left[1] == '*' || left[1] == '?') then None
      else Some(Parsed(if left[0] == '*' then Star(atom.value.r) else Maybe(atom.value.r), left[1..]))
  }

  /** Terms up to the end or to a closing bracket. */
  function ParseSequence(s: string): (p: Option<Parsed>)
    ensures p.Some? ==> |p.value.left| <= |s|
    decreases |s|, 2
  {
    if s == "" || s[0] == ')' then Some(Parsed(Empty, s))
    else
      var term := ParseTerm(s);
      if term.None? then None
      else
        var rest := ParseSequence(term.value.left);
        if rest.None? then None else Some(Parsed(Then(term.value.r, rest.value.r), rest.value.left))
  }

  /** `new RegExp(text).test(s)` for a text anchored at both ends. */
  ghost predicate Accepts(text: string, s: string) {
    && |text| >= 2 && text[0] == '^' && text[|text| - 1] == '$'
    && var p := ParseSequence(text[1..|text| - 1]);
    p.Some? && p.value.left == "" && Matches(p.value.r, s)
  }

  // ----- what the small trees match -----

  /** A tree that matches exactly the one-character strings of a class. */
  ghost predicate IsClass(r: Re, among: char -> bool) {
    forall s :: Matches(r, s) <==> |s| == 1 && among(s[0])
  }

  lemma {:induction false} StarOfClass(r: Re, among: char -> bool, s: string)
    requires IsClass(r, among)
    ensures Matches(Star(r), s) <==> forall i :: 0 <= i < |s| ==> among(s[i])
    decreases |s|
  {
    if s != "" {
      StarOfClass(r, among, s[1..]);
      if Matches(Star(r), s) {
        var k :| 0 < k <= |s| && Matches(r, s[..k]) && Matches(Star(r), s[k..]);
        assert k == 1;
        assert forall i :: 1 <= i < |s| ==> s[i] == s[1..][i - 1];
      }
      if forall i :: 0 <= i < |s| ==> among(s[i]) {
        assert Matches(r, s[..1]);
        assert Matches(Star(r), s[1..]);
      }
    }
  }
}

/**
 The PATH in a whole service file: the first match of `installedServicePath`'s regular expression, wherever it
 starts and however much it takes, is the PATH that `service install` wrote.
 */
module ServiceFiles {
  import opened Text
  import opened Wrappers
  import opened Quoting

  datatype Var = Var(key: string, value: string)

  /** A variable as the service files carry it: no line breaks, and no `=` in its name. */
  predicate Plain(v: Var) {
    OneLine(v.key) && OneLine(v.value) && '=' !in v.key
  }

  // ----- where a regular expression can match -----

  /** `^` with the m flag. */
  predicate LineStart(text: string, i: nat) {
    i == 0 || (i <= |text| && LineTerminator(text[i - 1]))
  }

  /** `$` with the m flag. */
  predicate LineEnd(text: string, i: nat) {
    i == |text| || (i < |text| && LineTerminator(text[i]))
  }

  /** The fixed beginning of the expression stands here. */
  predicate Candidate(text: string, i: nat, word: string, anchored: bool) {
    At(text, i, word) && (anchored ==> LineStart(text, i))
  }

  predicate Absent(text: string, word: string, anchored: bool) {
    forall i :: 0 <= i < |text| ==> !Candidate(text, i, word, anchored)
  }

  /** The text ends with a line. */
  predicate Closed(text: string) {
    text == "" || text[|text| - 1] == '\n'
  }

  /** A word without line feeds does not lie across one. */
  lemma NotAcross(text: string, i: nat, word: string, p: nat)
    requires i <= p < i + |word| && p < |text| && text[p] == '\n' && '\n' !in word
    ensures !At(text, i, word)
  {
    if i + |word| <= |text| {
      assert text[i..i + |word|][p - i] == '\n';
    }
  }

  lemma AtInSecond(a: string, b: string, i: nat, word: string)
    requires i >= |a|
    ensures At(a + b, i, word) == At(b, i - |a|, word)
    ensures i < |a + b| && LineStart(a + b, i) ==> LineStart(b, i - |a|)
  {
    if i + |word| <= |a + b| {
      assert (a + b)[i..i + |word|] == b[i - |a|..i - |a| + |word|];
    }
    if |a| < i <= |a + b| {
      assert (a + b)[i - 1] == b[i - |a| - 1];
    }
  }

  lemma AbsentAppend(a: string, b: string, word: string, anchored: bool)
    requires Closed(a) && Absent(a, word, anchored) && Absent(b, word, anchored) && word != "" && '\n' !in word
    ensures Absent(a + b, word, anchored)
  {
    forall i | 0 <= i < |a + b| ensures !Candidate(a + b, i, word, anchored) {
      if i < |a| {
        NoneBefore(a, b, word, anchored, i);
      } else {
        AtInSecond(a, b, i, word);
        assert !Candidate(b, i - |a|, word, anchored);
      }
    }
  }

  /** In a text of closed lines followed by anything, nothing matches before the first candidate line. */
  lemma NoneBefore(a: string, b: string, word: string, anchored: bool, i: nat)
    requires Closed(a) && Absent(a, word, anchored) && word != "" && '\n' !in word && i < |a|
    ensures !Candidate(a + b, i, word, anchored)
  {
    if i + |word| <= |a| {
      assert (a + b)[i..i + |word|] == a[i..i + |word|];
      assert !Candidate(a, i, word, anchored);
    } else {
      NotAcross(a + b, i, word, |a| - 1);
    }
  }

  // ----- the lines of the three files -----

  datatype Kind = Script | Systemd | Plist

  /** One variable's line. */
  function Line(kind: Kind, v: Var): (r: string) {
    match kind
    case Script => "export " + v.key + "=" + Sh(v.value) + "\n"
    case Systemd => "Environment=" + SdEnv(v.key + "=" + v.value) + "\n"
    case Plist => "    <key>" + XmlEscape(v.key) + "</key><string>" + XmlEscape(v.value) + "</string>\n"
  }

  function Lines(kind: Kind, vars: seq<Var>): (r: string) {
    if vars == [] then "" else Line(kind, vars[0]) + Lines(kind, vars[1..])
  }

  /** The fixed beginning of the expression that looks for PATH. */
  function Needle(kind: Kind): (r: string) {
    match kind
    case Script => "export PATH='"
    case Systemd => "Environment=\"PATH="
    case Plist => "<key>PATH</key><string>"
  }

  predicate Anchored(kind: Kind) {
    !kind.Plist?
  }

  /** The expression matches at `i` and captures `group`. */
  predicate Match(kind: Kind, text: string, i: nat, group: string) {
    var end := i + |Needle(kind)| + |group|;
    && Candidate(text, i, Needle(kind), Anchored(kind))
    && At(text, i + |Needle(kind)|, group)
    && match kind
       case Script => ShGroup(group) && At(text, end, "'") && LineEnd(text, end + 1)
       case Systemd => SdGroup(group) && At(text, end, "\"") && LineEnd(text, end + 1)
       case Plist => '<' !in group && At(text, end, "</string>")
  }

  function Unescape(kind: Kind, group: string): (r: string) {
    match kind
    case Script => ShUnescape(group)
    case Systemd => SdUnescape(group)
    case Plist => XmlUnescape(group)
  }

  /** The expression's first match, as `String.match` returns it. */
  ghost predicate FirstMatch(kind: Kind, text: string, i: nat, group: string) {
    Match(kind, text, i, group) && forall j, g :: 0 <= j < i ==> !Match(kind, text, j, g)
  }

  // ----- lines of other variables -----

  lemma {:induction false} ReplaceKeepsLine(s: string, c: char, sub: string)
    requires OneLine(s) && OneLine(sub)
    ensures OneLine(ReplaceChar(s, c, sub))
  {
    if s != "" {
      ReplaceKeepsLine(s[1..], c, sub);
    }
  }

  lemma EscapesKeepLine(s: string)
    requires OneLine(s)
    ensures OneLine(ShEscape(s)) && OneLine(SdEscape(s))
  {
    hide ReplaceChar;
    ReplaceKeepsLine(s, '\'', QUOTE);
    ReplaceKeepsLine(s, '\\', "\\\\");
    ReplaceKeepsLine(ReplaceChar(s, '\\', "\\\\"), '"', "\\\"");
    ReplaceKeepsLine(ReplaceChar(ReplaceChar(s, '\\', "\\\\"), '"', "\\\""), '%', "%%");
  }

  /** A line that is one line can only be a candidate at its start. */
  lemma OnlyAtStart(line: string, word: string)
    requires OneLine(line) && !At(line + "\n", 0, word)
    ensures Absent(line + "\n", word, true)
  {
    var text := line + "\n";
    forall i | 0 < i < |text| ensures !LineStart(text, i) {
      assert text[i - 1] == line[i - 1];
    }
  }

  /** A name that is followed by `=` where PATH is, is PATH. */
  lemma KeyIsPath(key: string, rest: string)
    requires '=' !in key
    ensures "PATH=" <= key + "=" + rest ==> key == "PATH"
  {
    var text := key + "=" + rest;
    if "PATH=" <= text {
      assert text[4] == '=' && text[|key|] == '=';
      assert text[0] != '=' && text[1] != '=' && text[2] != '=' && text[3] != '=';
      assert forall i :: 0 <= i < |key| ==> text[i] == key[i];
      assert |key| == 4;
      assert key == text[..4];
    }
  }

  lemma AfterPrefix(prefix: string, word: string, rest: string)
    ensures At(prefix + rest, 0, prefix + word) <==> word <= rest
  {
    if At(prefix + rest, 0, prefix + word) {
      assert word == (prefix + word)[|prefix|..] == (prefix + rest)[..|prefix| + |word|][|prefix|..] == rest[..|word|];
    }
    if word <= rest {
      assert (prefix + rest)[..|prefix| + |word|] == prefix + rest[..|word|];
    }
  }

  lemma ShorterPrefix(a: string, b: string, s: string)
    ensures a + b <= s ==> a <= s
  {
  }

  lemma OtherScriptLine(v: Var)
    requires Plain(v) && v.key != "PATH"
    ensures Absent(Line(Script, v), Needle(Script), true)
  {
    EscapesKeepLine(v.value);
    var line, rest := "export " + v.key + "=" + Sh(v.value), v.key + "=" + (Sh(v.value) + "\n");
    assert line + "\n" == "export " + rest && Needle(Script) == "export " + "PATH='" && "PATH='" == "PATH=" + "'";
    AfterPrefix("export ", "PATH='", rest);
    ShorterPrefix("PATH=", "'", rest);
    KeyIsPath(v.key, Sh(v.value) + "\n");
    OnlyAtStart(line, Needle(Script));
  }

  /** What is at the front of an escaped text and needs no escape was at the front of the text. */
  lemma {:induction false} SdPrefix(word: string, s: string, tail: string)
    requires forall i :: 0 <= i < |word| ==> word[i] !in {'\\', '"', '%'}
    requires tail != "" && tail[0] == '"'
    ensures word <= SdEscape(s) + tail ==> word <= s
  {
    if word != "" && s != "" {
      var c, left := s[0], s[1..];
      assert s == [c] + left;
      SdEscapeCons(c, left);
      var text := SdEscape(s) + tail;
      SdPrefix(word[1..], left, tail);
      if word <= text {
        assert text[0] == SdOf(c)[0] == word[0];
        assert SdOf(c) == [c];
        assert text[1..] == SdEscape(left) + tail;
        assert word[1..] <= text[1..];
        assert s == [word[0]] + left && word == [word[0]] + word[1..];
      }
    } else if word != "" {
      assert SdEscape("") + tail == tail;
    }
  }

  lemma OtherSystemdLine(v: Var)
    requires Plain(v) && v.key != "PATH"
    ensures Absent(Line(Systemd, v), Needle(Systemd), true)
  {
    var text := v.key + "=" + v.value;
    EscapesKeepLine(text);
    var line, rest := "Environment=" + SdEnv(text), SdEscape(text) + "\"\n";
    assert line + "\n" == "Environment=\"" + rest && Needle(Systemd) == "Environment=\"" + "PATH=";
    AfterPrefix("Environment=\"", "PATH=", rest);
    SdPrefix("PATH=", text, "\"\n");
    KeyIsPath(v.key, v.value);
    OnlyAtStart(line, Needle(Systemd));
  }

  /** In a plist line a key element begins nowhere but at its start. */
  lemma OneKeyElement(k: string, v: string, i: nat)
    requires '<' !in k && '<' !in v
    ensures At("    <key>" + k + "</key><string>" + v + "</string>\n", i, "<key>") ==> i == 4
  {
    var text := "    <key>" + k + "</key><string>" + v + "</string>\n";
    var n, m := 9 + |k|, 23 + |k| + |v|;
    if At(text, i, "<key>") {
      assert text[i] == text[i..i + 5][0] == '<' && text[i + 1] == text[i..i + 5][1] == 'k';
      assert forall j :: 9 <= j < n ==> text[j] == k[j - 9];
      assert forall j :: n + 14 <= j < m ==> text[j] == v[j - n - 14];
      assert text[n..n + 14] == "</key><string>" && text[m..] == "</string>\n";
      assert forall j :: 0 <= j < 14 ==> text[n + j] == "</key><string>"[j];
      assert forall j :: 0 <= j < 10 ==> text[m + j] == "</string>\n"[j];
      assert forall j :: 0 <= j < 9 ==> text[j] == "    <key>"[j];
      assert text[i] == '<' && text[i + 1] == 'k';
    }
  }

  lemma PathUnescaped()
    ensures XmlEscape("PATH") == "PATH"
  {
    hide ReplaceChar;
    ReplaceAbsent("PATH", '&', "&amp;");
    ReplaceAbsent("PATH", '<', "&lt;");
    ReplaceAbsent("PATH", '>', "&gt;");
    ReplaceAbsent("PATH", '"', "&quot;");
  }

  /** Up to the first `<` there is only one text. */
  lemma UpToTag(a: string, b: string, x: string, y: string)
    requires '<' !in a && '<' !in b && x != "" && y != "" && x[0] == '<' && y[0] == '<' && a + x == b + y
    ensures a == b
  {
    assert (a + x)[|a|] == '<' && (b + y)[|b|] == '<';
    assert |a| <= |b| by {
      assert forall i :: 0 <= i < |a| ==> (a + x)[i] == a[i];
    }
    assert |b| <= |a| by {
      assert forall i :: 0 <= i < |b| ==> (b + y)[i] == b[i];
    }
    assert a == (a + x)[..|a|] == (b + y)[..|b|] == b;
  }

  /** Where the needle stands, PATH and a tag follow the key element's start. */
  lemma NeedleParts(text: string, i: nat)
    requires At(text, i, Needle(Plist))
    ensures At(text, i, "<key>") && i + 9 < |text| && text[i + 5..i + 9] == "PATH" && text[i + 9] == '<'
  {
    var n := text[i..i + 23];
    assert n == "<key>PATH</key><string>";
    assert n[..5] == text[i..i + 5];
    assert n[5..9] == "PATH" && n[9] == '<';
    assert forall k :: 0 <= k < 23 ==> n[k] == text[i + k];
    assert text[i + 5..i + 9] == n[5..9];
  }

  lemma OtherKeyLine(k: string, x: string, i: nat)
    requires '<' !in k && '<' !in x && k != "PATH"
    ensures !At("    <key>" + k + "</key><string>" + x + "</string>\n", i, Needle(Plist))
  {
    var text := "    <key>" + k + "</key><string>" + x + "</string>\n";
    if At(text, i, Needle(Plist)) {
      NeedleParts(text, i);
      OneKeyElement(k, x, i);
      KeyText(k, x);
    }
  }

  lemma KeyText(k: string, x: string)
    requires '<' !in k
    ensures var text := "    <key>" + k + "</key><string>" + x + "</string>\n";
            13 < |text| && text[9..13] == "PATH" && text[13] == '<' ==> k == "PATH"
  {
    var text := "    <key>" + k + "</key><string>" + x + "</string>\n";
    var rest := "</key><string>" + x + "</string>\n";
    assert text[9..] == k + rest;
    if 13 < |text| && text[9..13] == "PATH" && text[13] == '<' {
      assert text[9..] == "PATH" + text[13..];
      UpToTag(k, "PATH", rest, text[13..]);
    }
  }

  lemma OtherPlistLine(v: Var)
    requires v.key != "PATH"
    ensures Absent(Line(Plist, v), Needle(Plist), false)
  {
    hide XmlEscape, At;
    var k, x := XmlEscape(v.key), XmlEscape(v.value);
    XmlNoTags(v.key);
    XmlNoTags(v.value);
    assert k != "PATH" by {
      XmlRoundTrip(v.key);
      XmlRoundTrip("PATH");
      PathUnescaped();
    }
    forall i | 0 <= i < |Line(Plist, v)| ensures !At(Line(Plist, v), i, Needle(Plist)) {
      OtherKeyLine(k, x, i);
    }
  }

  lemma OtherLine(kind: Kind, v: Var)
    requires Plain(v) && v.key != "PATH"
    ensures Absent(Line(kind, v), Needle(kind), Anchored(kind)) && Closed(Line(kind, v))
  {
    hide Absent;
    match kind
    case Script => OtherScriptLine(v);
    case Systemd => OtherSystemdLine(v);
    case Plist => OtherPlistLine(v);
  }

  lemma {:induction false} OtherLines(kind: Kind, vars: seq<Var>)
    requires forall i :: 0 <= i < |vars| ==> Plain(vars[i]) && vars[i].key != "PATH"
    ensures Absent(Lines(kind, vars), Needle(kind), Anchored(kind)) && Closed(Lines(kind, vars))
  {
    hide Absent, Plain, Line;
    if vars == [] {
      NothingAbsent(Needle(kind), Anchored(kind));
    } else {
      OtherLine(kind, vars[0]);
      OtherLines(kind, vars[1..]);
      AbsentAppend(Line(kind, vars[0]), Lines(kind, vars[1..]), Needle(kind), Anchored(kind));
    }
  }

  lemma NothingAbsent(word: string, anchored: bool)
    ensures Absent("", word, anchored)
  {
  }

  // ----- the line of PATH -----

  function Escaped(kind: Kind, value: string): (r: string) {
    match kind
    case Script => ShEscape(value)
    case Systemd => SdEscape(value)
    case Plist => XmlEscape(value)
  }

  function Lead(kind: Kind): (r: string) {
    if kind.Plist? then "    " else ""
  }

  function Close(kind: Kind): (r: string) {
    match kind
    case Script => "'"
    case Systemd => "\""
    case Plist => "</string>"
  }

  lemma {:induction false} SdEscapePlain(word: string, s: string)
    requires forall i :: 0 <= i < |word| ==> word[i] !in {'\\', '"', '%'}
    ensures SdEscape(word + s) == word + SdEscape(s)
  {
    if word == "" {
      assert word + s == s;
    } else {
      SdEscapeCons(word[0], word[1..] + s);
      SdEscapePlain(word[1..], s);
      assert word + s == [word[0]] + (word[1..] + s);
      assert word == [word[0]] + word[1..];
    }
  }

  lemma Regroup(x: string, q: string, e: string, c: string)
    ensures x + (q + e + c) + "\n" == (x + q) + e + c + "\n"
    ensures x + (q + e) + c + "\n" == (x + q) + e + c + "\n"
  {
  }

  lemma PathLine(kind: Kind, value: string)
    ensures Line(kind, Var("PATH", value)) == Lead(kind) + Needle(kind) + Escaped(kind, value) + Close(kind) + "\n"
  {
    hide ShEscape, SdEscape, XmlEscape;
    match kind
    case Script =>
      assert "export " + "PATH" + "=" + "'" == "" + "export PATH='";
      Regroup("export " + "PATH" + "=", "'", ShEscape(value), "'");
    case Systemd =>
      SdEscapePlain("PATH=", value);
      assert "PATH" + "=" + value == "PATH=" + value;
      assert "Environment=" + "\"" + "PATH=" == "" + "Environment=\"PATH=";
      Regroup("Environment=", "\"", "PATH=" + SdEscape(value), "\"");
      Regroup("Environment=" + "\"", "PATH=", SdEscape(value), "\"");
    case Plist =>
      PathUnescaped();
      assert "    <key>" + "PATH" + "</key><string>" == "    " + "<key>PATH</key><string>";
      assert Line(kind, Var("PATH", value)) ==
             "    <key>" + "PATH" + "</key><string>" + XmlEscape(value) + "</string>" + "\n";
  }

  lemma EscapedRoundTrip(kind: Kind, value: string)
    ensures Unescape(kind, Escaped(kind, value)) == value
  {
    hide ReplaceChar;
    match kind
    case Script => ShRoundTrip(value);
    case Systemd => SdRoundTrip(value);
    case Plist => XmlRoundTrip(value);
  }

  /** The places of the parts of a text. */
  lemma Parts(a: string, n: string, e: string, c: string, tail: string)
    ensures var text := a + n + e + c + tail;
            && At(text, |a|, n) && At(text, |a| + |n|, e) && At(text, |a| + |n| + |e|, c)
            && text[|a| + |n|..] == e + c + tail
            && (tail != "" ==> text[|a| + |n| + |e| + |c|] == tail[0])
            && (forall j :: 0 <= j < |a| ==> text[j] == a[j])
  {
    var text := a + n + e + c + tail;
    assert text[|a|..|a| + |n|] == n && text[|a| + |n|..|a| + |n| + |e|] == e;
    assert text[|a| + |n| + |e|..|a| + |n| + |e| + |c|] == c;
  }

  function WholeText(kind: Kind, a: string, value: string, tail: string): (text: string) {
    (a + Lead(kind)) + Needle(kind) + Escaped(kind, value) + Close(kind) + ("\n" + tail)
  }

  /** Where PATH's line is, the expression matches, and can capture exactly the escaped value. */
  lemma MatchesThere(kind: Kind, a: string, value: string, tail: string)
    requires Closed(a)
    ensures Match(kind, WholeText(kind, a, value, tail), |a| + |Lead(kind)|, Escaped(kind, value))
  {
    hide At, ShEscape, SdEscape, XmlEscape, Needle;
    var text := WholeText(kind, a, value, tail);
    Parts(a + Lead(kind), Needle(kind), Escaped(kind, value), Close(kind), "\n" + tail);
    assert ("\n" + tail)[0] == '\n';
    ShRoundTrip(value);
    SdRoundTrip(value);
    XmlNoTags(value);
    if a != "" {
      assert text[|a| - 1] == (a + Lead(kind))[|a| - 1] == '\n';
    }
  }

  lemma GroupAndRest(text: string, j: nat, group: string, c: string)
    requires At(text, j, group) && At(text, j + |group|, c) && c != ""
    ensures text[j..] == group + text[j + |group|..] && text[j + |group|..] != "" && text[j + |group|] == c[0]
  {
    assert text[j..j + |group|] == group;
    assert text[j + |group|..j + |group| + |c|][0] == c[0];
  }

  lemma Assoc(e: string, c: string, t: string)
    ensures e + c + t == e + (c + t)
  {
  }

  /** A quote at the end of a line closes. */
  lemma ClosesAtLineEnd(rest: string)
    requires rest != "" && rest[0] == '\'' && (|rest| == 1 || LineTerminator(rest[1]))
    ensures ShCloses(rest)
  {
  }

  lemma OnlyScriptGroup(text: string, j: nat, group: string, value: string, after: string)
    requires At(text, j, group) && ShGroup(group) && At(text, j + |group|, "'") && LineEnd(text, j + |group| + 1)
    requires text[j..] == ShEscape(value) + after && |after| > 1 && after[0] == '\'' && after[1] == '\n'
    ensures group == ShEscape(value)
  {
    hide ShEscape, ShGroup, ShCloses;
    GroupAndRest(text, j, group, "'");
    var rest := text[j + |group|..];
    ClosesAtLineEnd(rest);
    ClosesAtLineEnd(after);
    ShGroupIsAll(value, after, group, rest);
  }

  lemma OnlySystemdGroup(text: string, j: nat, group: string, value: string, after: string)
    requires At(text, j, group) && SdGroup(group) && At(text, j + |group|, "\"")
    requires text[j..] == SdEscape(value) + after && after != "" && after[0] == '"'
    ensures group == SdEscape(value)
  {
    hide SdEscape, SdGroup;
    GroupAndRest(text, j, group, "\"");
    SdGroupIsAll(value, after, group, text[j + |group|..]);
  }

  lemma OnlyPlistGroup(text: string, j: nat, group: string, value: string, after: string)
    requires At(text, j, group) && '<' !in group && At(text, j + |group|, "</string>")
    requires text[j..] == XmlEscape(value) + after && after != "" && after[0] == '<'
    ensures group == XmlEscape(value)
  {
    hide XmlEscape;
    XmlNoTags(value);
    GroupAndRest(text, j, group, "</string>");
    UpToTag(group, XmlEscape(value), text[j + |group|..], after);
  }

  lemma OnlyThatGroup(kind: Kind, a: string, value: string, tail: string, group: string)
    requires Match(kind, WholeText(kind, a, value, tail), |a| + |Lead(kind)|, group)
    ensures group == Escaped(kind, value)
  {
    hide At, ShEscape, SdEscape, XmlEscape, Needle;
    var text := WholeText(kind, a, value, tail);
    Parts(a + Lead(kind), Needle(kind), Escaped(kind, value), Close(kind), "\n" + tail);
    var j, after := |a| + |Lead(kind)| + |Needle(kind)|, Close(kind) + ("\n" + tail);
    Assoc(Escaped(kind, value), Close(kind), "\n" + tail);
    match kind
    case Script => OnlyScriptGroup(text, j, group, value, after);
    case Systemd => OnlySystemdGroup(text, j, group, value, after);
    case Plist => OnlyPlistGroup(text, j, group, value, after);
  }

  lemma AssocAll(a: string, l: string, n: string, e: string, c: string, t: string)
    ensures (a + l) + n + e + c + t == a + (l + n + e + c + t)
  {
  }

  /** Nothing before PATH's line matches. */
  lemma NoEarlierMatch(kind: Kind, a: string, value: string, tail: string, i: nat)
    requires Closed(a) && Absent(a, Needle(kind), Anchored(kind)) && i < |a| + |Lead(kind)|
    ensures !Candidate(WholeText(kind, a, value, tail), i, Needle(kind), Anchored(kind))
  {
    hide Absent, Escaped, Needle, Close, At;
    var text := WholeText(kind, a, value, tail);
    if i < |a| {
      AssocAll(a, Lead(kind), Needle(kind), Escaped(kind, value), Close(kind), "\n" + tail);
      NeedleIsALine(kind);
      NoneBefore(a, Lead(kind) + Needle(kind) + Escaped(kind, value) + Close(kind) + ("\n" + tail), Needle(kind),
                 Anchored(kind), i);
    } else {
      Parts(a + Lead(kind), Needle(kind), Escaped(kind, value), Close(kind), "\n" + tail);
      assert text[i] == Lead(kind)[i - |a|] == ' ';
      SpaceIsNoTag(text, i);
    }
  }

  lemma SpaceIsNoTag(text: string, i: nat)
    requires i < |text| && text[i] == ' '
    ensures !At(text, i, Needle(Plist))
  {
    if i + 23 <= |text| {
      assert text[i..i + 23][0] == ' ';
    }
  }

  lemma {:induction false} LinesSplit(kind: Kind, vars: seq<Var>, j: nat)
    requires j < |vars|
    ensures Lines(kind, vars) == Lines(kind, vars[..j]) + Line(kind, vars[j]) + Lines(kind, vars[j + 1..])
  {
    hide Line;
    if j > 0 {
      LinesSplit(kind, vars[1..], j - 1);
      assert vars[1..][..j - 1] == vars[..j][1..] && vars[1..][j..] == vars[j + 1..];
    }
  }

  /** The whole file: what stands before the variables, their lines, what stands after them. */
  function File(kind: Kind, before: string, vars: seq<Var>, after: string): (text: string) {
    before + Lines(kind, vars) + after
  }

  lemma FileSplit(kind: Kind, before: string, vars: seq<Var>, j: nat, after: string)
    requires j < |vars| && vars[j].key == "PATH"
    ensures File(kind, before, vars, after) ==
            WholeText(kind, before + Lines(kind, vars[..j]), vars[j].value, Lines(kind, vars[j + 1..]) + after)
  {
    hide Lines, Line, Escaped, Needle;
    LinesSplit(kind, vars, j);
    assert vars[j] == Var("PATH", vars[j].value);
    PathLine(kind, vars[j].value);
  }

  /**
   In a service file that names PATH among its variables, the expression has a first match, and whatever its
   first match is, unescaping what it captured gives back the PATH written there.
   */
  lemma PathRecovered(kind: Kind, before: string, vars: seq<Var>, j: nat, after: string)
    requires Closed(before) && Absent(before, Needle(kind), Anchored(kind))
    requires forall i :: 0 <= i < |vars| ==> Plain(vars[i])
    requires j < |vars| && vars[j].key == "PATH" && forall i :: 0 <= i < j ==> vars[i].key != "PATH"
    ensures exists i, group :: FirstMatch(kind, File(kind, before, vars, after), i, group)
    ensures forall i, group :: FirstMatch(kind, File(kind, before, vars, after), i, group) ==>
              Unescape(kind, group) == vars[j].value
  {
    hide Absent, Plain, Lines, Escaped, WholeText, Match, Needle, Unescape, Candidate;
    var a, value, tail := before + Lines(kind, vars[..j]), vars[j].value, Lines(kind, vars[j + 1..]) + after;
    var text, at := File(kind, before, vars, after), |before + Lines(kind, vars[..j])| + |Lead(kind)|;
    FileSplit(kind, before, vars, j, after);
    OtherLines(kind, vars[..j]);
    NeedleIsALine(kind);
    AbsentAppend(before, Lines(kind, vars[..j]), Needle(kind), Anchored(kind));
    forall i, g | 0 <= i < at ensures !Match(kind, text, i, g) {
      NoEarlierMatch(kind, a, value, tail, i);
      MatchNeedsCandidate(kind, text, i, g);
    }
    MatchesThere(kind, a, value, tail);
    assert FirstMatch(kind, text, at, Escaped(kind, value));
    forall i, group | FirstMatch(kind, text, i, group) ensures Unescape(kind, group) == value {
      assert i == at;
      OnlyThatGroup(kind, a, value, tail, group);
      EscapedRoundTrip(kind, value);
    }
  }

  lemma NeedleIsALine(kind: Kind)
    ensures Needle(kind) != "" && '\n' !in Needle(kind)
  {
  }

  lemma MatchNeedsCandidate(kind: Kind, text: string, i: nat, group: string)
    ensures Match(kind, text, i, group) ==> Candidate(text, i, Needle(kind), Anchored(kind))
  {
  }
}

/**
 Three printers and the parsers that read them back: the values a keep-alive script, a systemd unit and a launchd
 plist carry (connector/src/service.ts) against `installedServicePath` (connector/src/doctor.ts), and the words of a
 hook command against `hooksStatus` (connector/src/hooks.ts).
 */
module Quoting {
  import opened Text
  import opened Wrappers

  // ----- replacing -----

  /** `s.replace(/c/g, sub)` for one character. */
  function ReplaceChar(s: string, c: char, sub: string): (r: string) {
    if s == "" then "" else (if s[0] == c then sub else [s[0]]) + ReplaceChar(s[1..], c, sub)
  }

  /** `s.replace(/word/g, sub)`: leftmost occurrences, none overlapping. */
  function ReplaceWord(s: string, word: string, sub: string): (r: string)
    requires word != ""
  {
    if s == "" then ""
    else if word <= s then sub + ReplaceWord(s[|word|..], word, sub)
    else [s[0]] + ReplaceWord(s[1..], word, sub)
  }

  lemma ReplaceWordHere(word: string, rest: string, sub: string)
    requires word != ""
    ensures ReplaceWord(word + rest, word, sub) == sub + ReplaceWord(rest, word, sub)
  {
    assert (word + rest)[|word|..] == rest;
  }

  lemma ReplaceWordNotHere(c: char, rest: string, word: string, sub: string)
    requires word != "" && word[0] != c
    ensures ReplaceWord([c] + rest, word, sub) == [c] + ReplaceWord(rest, word, sub)
  {
    assert ([c] + rest)[1..] == rest;
  }

  // ----- the shell: single quotes -----

  const QUOTE := "'\\''"

  function ShEscape(s: string): (r: string) {
    ReplaceChar(s, '\'', QUOTE)
  }

  function Sh(s: string): (r: string) {
    "'" + ShEscape(s) + "'"
  }

  /** The group of both regular expressions: characters other than a quote, and quotes written `'\''`. */
  predicate ShGroup(s: string) {
    if s == "" then true
    else if s[0] != '\'' then ShGroup(s[1..])
    else QUOTE <= s && ShGroup(s[4..])
  }

  function ShUnescape(s: string): (r: string) {
    ReplaceWord(s, QUOTE, "'")
  }

  lemma {:induction false} ShEscapeCons(c: char, s: string)
    ensures ShEscape([c] + s) == (if c == '\'' then QUOTE else [c]) + ShEscape(s)
  {
    assert ([c] + s)[1..] == s;
  }

  /** The escaped text is such a group, and unescapes to what was escaped. */
  lemma {:induction false} ShRoundTrip(s: string)
    ensures ShGroup(ShEscape(s))
    ensures ShUnescape(ShEscape(s)) == s
  {
    if s != "" {
      var c, rest := s[0], s[1..];
      assert s == [c] + rest;
      ShEscapeCons(c, rest);
      ShRoundTrip(rest);
      if c == '\'' {
        ReplaceWordHere(QUOTE, ShEscape(rest), "'");
        assert (QUOTE + ShEscape(rest))[4..] == ShEscape(rest);
      } else {
        ReplaceWordNotHere(c, ShEscape(rest), QUOTE, "'");
        assert ([c] + ShEscape(rest))[1..] == ShEscape(rest);
      }
    }
  }

  /** How far such a group can go from the front of a text. */
  function ShScan(s: string): (n: nat)
    ensures n <= |s|
  {
    if s == "" then 0
    else if s[0] != '\'' then 1 + ShScan(s[1..])
    else if QUOTE <= s then 4 + ShScan(s[4..])
    else 0
  }

  /** The text goes on with a quote that does not begin `'\''`. */
  predicate ShCloses(rest: string) {
    rest != "" && rest[0] == '\'' && !(QUOTE <= rest)
  }

  lemma {:induction false} ShScanGroup(group: string, rest: string)
    requires ShGroup(group) && ShCloses(rest)
    ensures ShScan(group + rest) == |group|
    decreases |group|
  {
    if group == "" {
      assert group + rest == rest;
    } else if group[0] != '\'' {
      assert (group + rest)[1..] == group[1..] + rest;
      ShScanGroup(group[1..], rest);
    } else {
      assert (group + rest)[4..] == group[4..] + rest;
      assert (group + rest)[..4] == group[..4] == QUOTE;
      ShScanGroup(group[4..], rest);
    }
  }

  /** A group that ends at a closing quote is the whole of the escaped text before it. */
  lemma ShGroupIsAll(s: string, after: string, group: string, rest: string)
    requires ShGroup(group) && ShCloses(rest) && ShCloses(after)
    requires group + rest == ShEscape(s) + after
    ensures group == ShEscape(s) && rest == after
  {
    ShRoundTrip(s);
    ShScanGroup(group, rest);
    ShScanGroup(ShEscape(s), after);
    assert group == (group + rest)[..|group|] && rest == (group + rest)[|group|..];
  }

  /**
   What a shell makes of a word: text between single quotes is literal, a backslash outside them makes the next
   character literal (POSIX Shell Command Language, sections 2.2.1 and 2.2.2).  None when a quote is left open.
   */
  function ShellWord(s: string, quoted: bool): (r: Option<string>) {
    if s == "" then if quoted then None else Some("")
    else if s[0] == '\'' then ShellWord(s[1..], !quoted)
    else if s[0] == '\\' && !quoted then
      if |s| == 1 then None else Also(s[1], ShellWord(s[2..], false))
    else Also(s[0], ShellWord(s[1..], quoted))
  }

  function Also(c: char, r: Option<string>): (r': Option<string>) {
    if r.None? then None else Some([c] + r.value)
  }

  lemma {:induction false} ShellReads(s: string)
    ensures ShellWord(ShEscape(s) + "'", true) == Some(s)
  {
    if s == "" {
      assert ShEscape(s) + "'" == "'";
      assert "'"[1..] == "";
    } else {
      var c, left := s[0], s[1..];
      assert s == [c] + left;
      ShEscapeCons(c, left);
      ShellReads(left);
      var rest := ShEscape(left) + "'";
      if c == '\'' {
        var text := QUOTE + rest;
        assert ShEscape(s) + "'" == text;
        assert text[1..] == "\\''" + rest;
        assert text[1..][2..] == "'" + rest;
        assert ("'" + rest)[1..] == rest;
        assert ShellWord("'" + rest, false) == Some(left);
        assert ShellWord(text[1..], false) == Also('\'', Some(left));
        assert ShellWord(text, true) == Some(['\''] + left);
      } else {
        assert ShEscape(s) + "'" == [c] + rest;
        assert ([c] + rest)[1..] == rest;
      }
    }
  }

  /** A shell reads the quoted word as the value. */
  lemma ShellReadsQuoted(s: string)
    ensures ShellWord(Sh(s), false) == Some(s)
  {
    ShellReads(s);
    assert Sh(s) == "'" + (ShEscape(s) + "'");
    assert Sh(s)[1..] == ShEscape(s) + "'";
  }

  lemma {:induction false} ReplaceCharAppend(a: string, b: string, c: char, sub: string)
    ensures ReplaceChar(a + b, c, sub) == ReplaceChar(a, c, sub) + ReplaceChar(b, c, sub)
  {
    if a == "" {
      assert a + b == b;
    } else {
      assert (a + b)[1..] == a[1..] + b;
      ReplaceCharAppend(a[1..], b, c, sub);
    }
  }

  // ----- systemd: double quotes -----

  function SdEscape(s: string): (r: string) {
    ReplaceChar(ReplaceChar(ReplaceChar(s, '\\', "\\\\"), '"', "\\\""), '%', "%%")
  }

  function SdEnv(s: string): (r: string) {
    "\"" + SdEscape(s) + "\""
  }

  function SdOf(c: char): (r: string) {
    if c == '\\' then "\\\\" else if c == '"' then "\\\"" else if c == '%' then "%%" else [c]
  }

  lemma OneReplaced(c: char, d: char, sub: string)
    ensures ReplaceChar([c], d, sub) == if c == d then sub else [c]
  {
    assert [c][1..] == "";
    assert ReplaceChar("", d, sub) == "";
  }

  lemma SdOne(c: char)
    ensures SdEscape([c]) == SdOf(c)
  {
    OneReplaced(c, '\\', "\\\\");
    OneReplaced(c, '"', "\\\"");
    OneReplaced(c, '%', "%%");
    ReplaceCharAppend("\\", "\\", '"', "\\\"");
    ReplaceCharAppend("\\", "\\", '%', "%%");
    ReplaceCharAppend("\\", "\"", '%', "%%");
    OneReplaced('\\', '"', "\\\"");
    OneReplaced('\\', '%', "%%");
    OneReplaced('"', '%', "%%");
    assert "\\\\" == "\\" + "\\" && "\\\"" == "\\" + "\"";
  }

  /** The three passes are one escape a character. */
  lemma SdEscapeCons(c: char, s: string)
    ensures SdEscape([c] + s) == SdOf(c) + SdEscape(s)
  {
    SdOne(c);
    var one, all := ReplaceChar([c], '\\', "\\\\"), ReplaceChar(s, '\\', "\\\\");
    ReplaceCharAppend([c], s, '\\', "\\\\");
    ReplaceCharAppend(one, all, '"', "\\\"");
    ReplaceCharAppend(ReplaceChar(one, '"', "\\\""), ReplaceChar(all, '"', "\\\""), '%', "%%");
  }

  /** The group of the regular expression: characters other than `"` and `\`, and a backslash with what follows it. */
  predicate SdGroup(s: string) {
    if s == "" then true
    else if s[0] == '\\' then |s| > 1 && !LineTerminator(s[1]) && SdGroup(s[2..])
    else s[0] != '"' && SdGroup(s[1..])
  }

  /** `s.replace(/\\(.)/g, "$1")`. */
  function Unslash(s: string): (r: string) {
    if s == "" then ""
    else if s[0] == '\\' && |s| > 1 && !LineTerminator(s[1]) then [s[1]] + Unslash(s[2..])
    else [s[0]] + Unslash(s[1..])
  }

  function SdUnescape(s: string): (r: string) {
    ReplaceWord(Unslash(s), "%%", "%")
  }

  function Doubled(s: string): (r: string) {
    ReplaceChar(s, '%', "%%")
  }

  lemma {:induction false} UnslashEscape(s: string)
    ensures SdGroup(SdEscape(s)) && Unslash(SdEscape(s)) == Doubled(s)
  {
    if s != "" {
      var c, left := s[0], s[1..];
      assert s == [c] + left;
      SdEscapeCons(c, left);
      UnslashEscape(left);
      var text := SdOf(c) + SdEscape(left);
      if c == '\\' || c == '"' || c == '%' {
        assert text[2..] == SdEscape(left);
        if c == '%' {
          assert text[1..][1..] == SdEscape(left);
          assert SdGroup(text[1..]) && Unslash(text[1..]) == "%" + Doubled(left);
        }
      } else {
        assert text[1..] == SdEscape(left);
      }
    }
  }

  lemma {:induction false} Halved(s: string)
    ensures ReplaceWord(Doubled(s), "%%", "%") == s
  {
    if s != "" {
      var c, left := s[0], s[1..];
      Halved(left);
      if c == '%' {
        ReplaceWordHere("%%", Doubled(left), "%");
      } else {
        ReplaceWordNotHere(c, Doubled(left), "%%", "%");
      }
    }
  }

  lemma SdRoundTrip(s: string)
    ensures SdGroup(SdEscape(s)) && SdUnescape(SdEscape(s)) == s
  {
    UnslashEscape(s);
    Halved(s);
  }

  function SdScan(s: string): (n: nat)
    ensures n <= |s|
  {
    if s == "" || s[0] == '"' then 0
    else if s[0] == '\\' then if |s| > 1 then 2 + SdScan(s[2..]) else 0
    else 1 + SdScan(s[1..])
  }

  lemma {:induction false} SdScanGroup(group: string, rest: string)
    requires SdGroup(group) && rest != "" && rest[0] == '"'
    ensures SdScan(group + rest) == |group|
    decreases |group|
  {
    if group == "" {
      assert group + rest == rest;
    } else if group[0] == '\\' {
      assert (group + rest)[2..] == group[2..] + rest;
      SdScanGroup(group[2..], rest);
    } else {
      assert (group + rest)[1..] == group[1..] + rest;
      SdScanGroup(group[1..], rest);
    }
  }

  lemma SdGroupIsAll(s: string, after: string, group: string, rest: string)
    requires SdGroup(group) && rest != "" && rest[0] == '"' && after != "" && after[0] == '"'
    requires group + rest == SdEscape(s) + after
    ensures group == SdEscape(s) && rest == after
  {
    SdRoundTrip(s);
    SdScanGroup(group, rest);
    SdScanGroup(SdEscape(s), after);
    assert group == (group + rest)[..|group|] && rest == (group + rest)[|group|..];
  }

  // ----- XML: entities -----

  const ENTITIES := ["&lt;", "&gt;", "&quot;", "&amp;"]
  const STANDS_FOR := ['<', '>', '"', '&']

  function XmlEscape(s: string): (r: string) {
    ReplaceChar(ReplaceChar(ReplaceChar(ReplaceChar(s, '&', "&amp;"), '<', "&lt;"), '>', "&gt;"), '"', "&quot;")
  }

  function XmlUnescape(s: string): (r: string) {
    ReplaceWord(ReplaceWord(ReplaceWord(ReplaceWord(s, "&lt;", "<"), "&gt;", ">"), "&quot;", "\""), "&amp;", "&")
  }

  /** The text of a character when the first `k` of the four are no longer escaped. */
  function XmlOf(c: char, k: nat): (r: string)
    requires k <= 4
  {
    if c == '<' && k < 1 then "&lt;" else if c == '>' && k < 2 then "&gt;"
    else if c == '"' && k < 3 then "&quot;" else if c == '&' && k < 4 then "&amp;"
    else [c]
  }

  function XmlText(s: string, k: nat): (r: string)
    requires k <= 4
  {
    if s == "" then "" else XmlOf(s[0], k) + XmlText(s[1..], k)
  }

  lemma ReplaceAbsent(s: string, c: char, sub: string)
    requires c !in s
    ensures ReplaceChar(s, c, sub) == s
  {
    if s != "" {
      ReplaceAbsent(s[1..], c, sub);
    }
  }

  lemma XmlOne(c: char)
    ensures XmlEscape([c]) == XmlOf(c, 0)
  {
    hide ReplaceChar;
    OneReplaced(c, '&', "&amp;");
    OneReplaced(c, '<', "&lt;");
    OneReplaced(c, '>', "&gt;");
    OneReplaced(c, '"', "&quot;");
    ReplaceAbsent("&amp;", '<', "&lt;");
    ReplaceAbsent("&amp;", '>', "&gt;");
    ReplaceAbsent("&amp;", '"', "&quot;");
    ReplaceAbsent("&lt;", '>', "&gt;");
    ReplaceAbsent("&lt;", '"', "&quot;");
    ReplaceAbsent("&gt;", '"', "&quot;");
  }

  lemma {:induction false} XmlEscapeIs(s: string)
    ensures XmlEscape(s) == XmlText(s, 0)
  {
    if s != "" {
      var c, left := s[0], s[1..];
      assert s == [c] + left;
      XmlEscapeIs(left);
      XmlOne(c);
      ReplaceCharAppend([c], left, '&', "&amp;");
      var a1, b1 := ReplaceChar([c], '&', "&amp;"), ReplaceChar(left, '&', "&amp;");
      ReplaceCharAppend(a1, b1, '<', "&lt;");
      var a2, b2 := ReplaceChar(a1, '<', "&lt;"), ReplaceChar(b1, '<', "&lt;");
      ReplaceCharAppend(a2, b2, '>', "&gt;");
      ReplaceCharAppend(ReplaceChar(a2, '>', "&gt;"), ReplaceChar(b2, '>', "&gt;"), '"', "&quot;");
    }
  }

  /** A text that begins with an ampersand only, and not with this entity, passes unchanged. */
  lemma {:induction false} PassesOver(text: string, rest: string, word: string, sub: string)
    requires word != "" && word[0] == '&' && text != "" && '&' !in text[1..] && !(word <= text + rest)
    ensures ReplaceWord(text + rest, word, sub) == text + ReplaceWord(rest, word, sub)
  {
    PassesPlain(text[1..], rest, word, sub);
    assert (text + rest)[1..] == text[1..] + rest;
    assert text == [text[0]] + text[1..];
  }

  lemma {:induction false} PassesPlain(text: string, rest: string, word: string, sub: string)
    requires word != "" && word[0] == '&' && '&' !in text
    ensures ReplaceWord(text + rest, word, sub) == text + ReplaceWord(rest, word, sub)
  {
    if text == "" {
      assert text + rest == rest;
    } else {
      PassesPlain(text[1..], rest, word, sub);
      assert text + rest == [text[0]] + (text[1..] + rest);
      ReplaceWordNotHere(text[0], text[1..] + rest, word, sub);
    }
  }

  /** One pass of the unescaping takes back one kind of escape. */
  lemma {:induction false} XmlPass(s: string, k: nat)
    requires k < 4
    ensures ReplaceWord(XmlText(s, k), ENTITIES[k], [STANDS_FOR[k]]) == XmlText(s, k + 1)
  {
    if s != "" {
      var c, rest := s[0], XmlText(s[1..], k);
      XmlPass(s[1..], k);
      if c == STANDS_FOR[k] {
        ReplaceWordHere(ENTITIES[k], rest, [c]);
      } else {
        var text := XmlOf(c, k);
        assert '&' !in text[1..];
        assert (text + rest)[0] == text[0];
        if text[0] == '&' {
          assert text[1] != ENTITIES[k][1] && (text + rest)[1] == text[1];
        }
        PassesOver(text, rest, ENTITIES[k], [STANDS_FOR[k]]);
      }
    }
  }

  lemma {:induction false} XmlPlain(s: string)
    ensures XmlText(s, 4) == s
  {
    if s != "" {
      XmlPlain(s[1..]);
    }
  }

  lemma XmlRoundTrip(s: string)
    ensures XmlUnescape(XmlEscape(s)) == s
  {
    XmlEscapeIs(s);
    XmlPass(s, 0);
    XmlPass(s, 1);
    XmlPass(s, 2);
    XmlPass(s, 3);
    XmlPlain(s);
  }

  /** What an XML reader makes of character data: each predefined entity, in one pass (XML 1.0, section 4.6). */
  function XmlRead(s: string): (r: string) {
    if s == "" then ""
    else if "&lt;" <= s then "<" + XmlRead(s[4..])
    else if "&gt;" <= s then ">" + XmlRead(s[4..])
    else if "&quot;" <= s then "\"" + XmlRead(s[6..])
    else if "&apos;" <= s then "'" + XmlRead(s[6..])
    else if "&amp;" <= s then "&" + XmlRead(s[5..])
    else [s[0]] + XmlRead(s[1..])
  }

  lemma {:induction false} XmlReaderReads(s: string)
    ensures XmlRead(XmlEscape(s)) == s
  {
    XmlEscapeIs(s);
    if s != "" {
      XmlReaderReads(s[1..]);
      XmlEscapeIs(s[1..]);
      var rest := XmlText(s[1..], 0);
      var text := XmlOf(s[0], 0) + rest;
      assert text[|XmlOf(s[0], 0)|..] == rest;
      assert s[0] == '<' ==> "&lt;" <= text;
      assert s[0] == '>' ==> "&gt;" <= text && text[1] == 'g';
      assert s[0] == '"' ==> "&quot;" <= text && text[1] == 'q';
      assert s[0] == '&' ==> "&amp;" <= text && text[1] == 'a' && text[2] == 'm';
    }
  }

  lemma {:induction false} XmlNoTags(s: string)
    ensures '<' !in XmlEscape(s)
  {
    XmlEscapeIs(s);
    XmlTextNoTags(s);
  }

  lemma {:induction false} XmlTextNoTags(s: string)
    ensures '<' !in XmlText(s, 0)
  {
    if s != "" {
      XmlTextNoTags(s[1..]);
    }
  }
}

/**
 Following a transcript that another process appends to (`TranscriptTail.take`, connector/src/attach.ts): however
 the appended text is cut into chunks, whole lines come out, in order, and a line too long to hold is skipped.
 */
module Tail {
  import opened Text

  const MAX_LINE: nat := 1024 * 1024

  // ----- lines -----

  /** The lines that have ended. */
  function Lines(s: string): (r: seq<string>) {
    SplitFeeds(s)[..|SplitFeeds(s)| - 1]
  }

  /** What comes after the last line that has ended. */
  function Rest(s: string): (r: string) {
    SplitFeeds(s)[|SplitFeeds(s)| - 1]
  }

  function NonEmpty(lines: seq<string>): (r: seq<string>) {
    if lines == [] then [] else (if lines[0] == "" then [] else [lines[0]]) + NonEmpty(lines[1..])
  }

  // ----- the reader -----

  datatype State = State(partial: string, skipping: bool)

  /** The position of the last line feed, or -1. */
  method LastLineFeed(s: string) returns (i: int)
    ensures -1 <= i < |s|
    ensures i >= 0 ==> s[i] == '\n'
    ensures forall j :: i < j < |s| ==> s[j] != '\n'
  {
    i := |s| - 1;
    while i >= 0 && s[i] != '\n'
      invariant -1 <= i < |s|
      invariant forall j :: i < j < |s| ==> s[j] != '\n'
    {
      i := i - 1;
    }
  }

  /** A line too long to hold is let go, and its end skipped. */
  function Held(partial: string, skipping: bool): (r: State) {
    if |partial| > MAX_LINE then State("", true) else State(partial, skipping)
  }

  function After(t: State, chunk: string): (r: State) {
    var text := t.partial + chunk;
    Held(Rest(text), t.skipping && Lines(text) == [])
  }

  function Passed(t: State, chunk: string): (r: seq<string>) {
    var lines := Lines(t.partial + chunk);
    NonEmpty(if t.skipping && lines != [] then lines[1..] else lines)
  }

  class TranscriptTail {
    var partial: string
    var skipping: bool

    function View(): (t: State)
      reads this
    {
      State(partial, skipping)
    }

    constructor ()
      ensures View() == State("", false)
    {
      partial, skipping := "", false;
    }

    /** The lines handed on; the source reads each for its updates. */
    method Take(chunk: string) returns (out: seq<string>)
      modifies this
      ensures View() == After(old(View()), chunk)
      ensures out == Passed(old(View()), chunk)
    {
      hide SplitFeeds;
      var text := partial + chunk;
      var end := LastLineFeed(text);
      if end < 0 {
        NoLineFeed(text);
        partial := text;
        if |partial| > MAX_LINE {
          partial, skipping := "", true;
        }
        return [];
      }
      CutAt(text, end);
      partial := text[end + 1..];
      var lines := SplitFeeds(text[..end]);
      if skipping {
        lines, skipping := lines[1..], false;
      }
      if |partial| > MAX_LINE {
        partial, skipping := "", true;
      }
      out := KeepNonEmpty(lines);
    }
  }

  method KeepNonEmpty(lines: seq<string>) returns (out: seq<string>)
    ensures out == NonEmpty(lines)
  {
    out := [];
    var i := 0;
    while i < |lines|
      invariant 0 <= i <= |lines|
      invariant out + NonEmpty(lines[i..]) == NonEmpty(lines)
    {
      assert lines[i..][1..] == lines[i + 1..];
      if lines[i] != "" {
        out := out + [lines[i]];
      }
      i := i + 1;
    }
  }

  lemma {:induction false} NoLineFeed(s: string)
    requires forall j :: 0 <= j < |s| ==> s[j] != '\n'
    ensures SplitFeeds(s) == [s] && Lines(s) == [] && Rest(s) == s
  {
    if s != "" {
      NoLineFeed(s[1..]);
      assert s == [s[0]] + s[1..];
    }
  }

  /** Two lists of parts with the last of one and the first of the other made one. */
  function Glue(x: seq<string>, y: seq<string>): (r: seq<string>)
    requires |x| > 0 && |y| > 0
    ensures |r| > 0
  {
    x[..|x| - 1] + [x[|x| - 1] + y[0]] + y[1..]
  }

  lemma GlueNew(x: seq<string>, y: seq<string>)
    requires |x| > 0 && |y| > 0
    ensures Glue([""] + x, y) == [""] + Glue(x, y)
  {
  }

  lemma GlueMore(c: char, x: seq<string>, y: seq<string>)
    requires |x| > 0 && |y| > 0
    ensures Glue([[c] + x[0]] + x[1..], y) == [[c] + Glue(x, y)[0]] + Glue(x, y)[1..]
  {
    if |x| == 1 {
      assert [c] + (x[0] + y[0]) == ([c] + x[0]) + y[0];
    }
  }

  /** A text in two parts: the line across the cut is made of both. */
  lemma {:induction false} SplitAppend(a: string, b: string)
    ensures SplitFeeds(a + b) == Glue(SplitFeeds(a), SplitFeeds(b))
  {
    hide Glue;
    if a == "" {
      assert a + b == b;
      GlueNothing(SplitFeeds(b));
    } else {
      assert (a + b)[1..] == a[1..] + b && (a + b)[0] == a[0];
      SplitAppend(a[1..], b);
      GlueNew(SplitFeeds(a[1..]), SplitFeeds(b));
      GlueMore(a[0], SplitFeeds(a[1..]), SplitFeeds(b));
    }
  }

  lemma GlueNothing(y: seq<string>)
    requires |y| > 0
    ensures Glue([""], y) == y
  {
    assert "" + y[0] == y[0];
  }

  lemma CutAt(s: string, end: nat)
    requires end < |s| && s[end] == '\n' && forall j :: end < j < |s| ==> s[j] != '\n'
    ensures Lines(s) == SplitFeeds(s[..end]) && Rest(s) == s[end + 1..]
  {
    var a, b := s[..end], s[end..];
    assert s == a + b && b[0] == '\n' && b[1..] == s[end + 1..];
    SplitAppend(a, b);
    NoLineFeed(b[1..]);
    assert SplitFeeds(b) == [""] + [b[1..]];
    assert Rest(a) + "" == Rest(a);
    assert SplitFeeds(s) == SplitFeeds(a) + [b[1..]];
  }

  // ----- what comes out -----

  /** `out` are the lines, in order, without any but empty ones and ones too long. */
  ghost predicate Selects(out: seq<string>, lines: seq<string>)
    decreases |lines|
  {
    if lines == [] then out == []
    else
      || (out != [] && out[0] == lines[0] && lines[0] != "" && Selects(out[1..], lines[1..]))
      || ((lines[0] == "" || |lines[0]| > MAX_LINE) && Selects(out, lines[1..]))
  }

  lemma {:induction false} SelectsAppend(a: seq<string>, b: seq<string>, out: seq<string>, more: seq<string>)
    requires Selects(out, a) && Selects(more, b)
    ensures Selects(out + more, a + b)
    decreases |a|
  {
    if a == [] {
      assert a + b == b && out + more == more;
    } else {
      assert (a + b)[1..] == a[1..] + b;
      if out != [] && out[0] == a[0] && a[0] != "" && Selects(out[1..], a[1..]) {
        SelectsAppend(a[1..], b, out[1..], more);
        assert (out + more)[1..] == out[1..] + more;
      } else {
        SelectsAppend(a[1..], b, out, more);
      }
    }
  }

  lemma {:induction false} NonEmptySelects(lines: seq<string>)
    ensures Selects(NonEmpty(lines), lines)
  {
    if lines != [] {
      NonEmptySelects(lines[1..]);
      if lines[0] == "" {
        assert NonEmpty(lines) == NonEmpty(lines[1..]);
      } else {
        assert NonEmpty(lines)[1..] == NonEmpty(lines[1..]);
      }
    }
  }

  /** What the reader holds, against all the text it has been given. */
  predicate Holds(t: State, text: string) {
    NoFeed(t.partial) &&
    if t.skipping then |Rest(text)| > MAX_LINE
    else t.partial == Rest(text) && |t.partial| <= MAX_LINE
  }

  predicate NoFeed(s: string) {
    forall i :: 0 <= i < |s| ==> s[i] != '\n'
  }

  function TakeAll(chunks: seq<string>): (r: (State, seq<string>)) {
    if chunks == [] then (State("", false), [])
    else
      var before := TakeAll(chunks[..|chunks| - 1]);
      (After(before.0, chunks[|chunks| - 1]), before.1 + Passed(before.0, chunks[|chunks| - 1]))
  }

  lemma {:induction false} PartsAreLines(s: string)
    ensures forall i :: 0 <= i < |SplitFeeds(s)| ==> NoFeed(SplitFeeds(s)[i])
  {
    if s != "" {
      PartsAreLines(s[1..]);
    }
  }

  /** The lines that a chunk ends. */
  function Ended(text: string, chunk: string): (r: seq<string>) {
    var parts := SplitFeeds(chunk);
    if |parts| == 1 then [] else [Rest(text) + parts[0]] + parts[1..|parts| - 1]
  }

  lemma LinesGrow(text: string, chunk: string)
    ensures Lines(text + chunk) == Lines(text) + Ended(text, chunk)
    ensures var parts := SplitFeeds(chunk);
            Rest(text + chunk) == if |parts| == 1 then Rest(text) + parts[0] else parts[|parts| - 1]
  {
    hide SplitFeeds, Glue;
    SplitAppend(text, chunk);
    GlueParts(SplitFeeds(text), SplitFeeds(chunk));
  }

  lemma GlueParts(x: seq<string>, y: seq<string>)
    requires |x| > 0 && |y| > 0
    ensures var g := Glue(x, y);
            && g[..|g| - 1] == x[..|x| - 1] + (if |y| == 1 then [] else [x[|x| - 1] + y[0]] + y[1..|y| - 1])
            && g[|g| - 1] == (if |y| == 1 then x[|x| - 1] + y[0] else y[|y| - 1])
  {
  }

  /** One chunk: what is handed on selects from the lines it ends, and the reader goes on holding the rest. */
  lemma TakeStep(t: State, text: string, chunk: string)
    requires Holds(t, text)
    ensures Holds(After(t, chunk), text + chunk)
    ensures Selects(Passed(t, chunk), Ended(text, chunk))
    ensures !t.skipping ==> Passed(t, chunk) == NonEmpty(Ended(text, chunk))
  {
    hide SplitFeeds, NonEmpty, Selects;
    LinesGrow(text, chunk);
    LinesGrow(t.partial, chunk);
    NoLineFeed(t.partial);
    var lines, mine := Ended(text, chunk), Ended(t.partial, chunk);
    assert Lines(t.partial + chunk) == mine;
    PartsAreLines(t.partial + chunk);
    assert NoFeed(Rest(t.partial + chunk));
    NonEmptySelects(mine);
    if t.skipping && mine != [] {
      assert lines[1..] == mine[1..];
      NonEmptySelects(mine[1..]);
      SkipLong(NonEmpty(mine[1..]), lines);
    } else if t.skipping {
      assert lines == mine;
    }
  }

  lemma SkipLong(out: seq<string>, lines: seq<string>)
    requires lines != [] && |lines[0]| > MAX_LINE && Selects(out, lines[1..])
    ensures Selects(out, lines)
  {
  }

  lemma {:induction false} TakeAllHolds(chunks: seq<string>)
    ensures var r := TakeAll(chunks);
            Holds(r.0, Concat(chunks)) && Selects(r.1, Lines(Concat(chunks)))
  {
    if chunks == [] {
      assert SplitFeeds("") == [""];
    } else {
      hide Holds, Selects, After, Passed, Lines;
      var n := |chunks| - 1;
      var before, text := TakeAll(chunks[..n]), Concat(chunks[..n]);
      TakeAllHolds(chunks[..n]);
      TakeStep(before.0, text, chunks[n]);
      LinesGrow(text, chunks[n]);
      SelectsAppend(Lines(text), Ended(text, chunks[n]), before.1, Passed(before.0, chunks[n]));
    }
  }

  /**
   However the text is cut into chunks, what is handed on is lines of the text, whole and in order, and lacks
   none but empty lines and lines longer than the limit.
   */
  lemma WholeLinesInOrder(chunks: seq<string>)
    ensures Selects(TakeAll(chunks).1, Lines(Concat(chunks)))
  {
    TakeAllHolds(chunks);
  }

  /**
   Where no line is too long, the cuts make no difference: every line that is not empty comes out, once and in order.
   */
  lemma {:induction false} SelectsAll(out: seq<string>, lines: seq<string>)
    requires Selects(out, lines) && forall i :: 0 <= i < |lines| ==> |lines[i]| <= MAX_LINE
    ensures out == NonEmpty(lines)
    decreases |lines|
  {
    if lines != [] {
      if lines[0] == "" {
        SelectsAll(out, lines[1..]);
      } else {
        SelectsAll(out[1..], lines[1..]);
        assert out == [out[0]] + out[1..];
      }
    }
  }

  lemma CutsMakeNoDifference(chunks: seq<string>)
    requires forall i :: 0 <= i < |Lines(Concat(chunks))| ==> |Lines(Concat(chunks))[i]| <= MAX_LINE
    ensures TakeAll(chunks).1 == NonEmpty(Lines(Concat(chunks)))
  {
    WholeLinesInOrder(chunks);
    SelectsAll(TakeAll(chunks).1, Lines(Concat(chunks)));
  }
}

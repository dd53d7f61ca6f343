/**
 The event-stream parser (connector/src/sse.ts; the format of section 9.2 of the WHATWG HTML Standard): text arrives
 in chunks cut anywhere, frames come out as their blocks end.
 */
module Sse {
  import opened Text
  import opened Wrappers

  datatype Frame = Frame(id: Option<string>, event: Option<string>, data: Option<string>, comment: bool)

  const BLANK := Frame(None, None, None, false)

  // ----- blocks -----

  /** The length of the block end at the front of the text: `\r\n\r\n`, `\n\n` or `\r\r`; 0 when there is none. */
  function EndHere(s: string): (n: nat)
    ensures n == 0 || 2 <= n <= |s|
  {
    if "\r\n\r\n" <= s then 4 else if "\n\n" <= s || "\r\r" <= s then 2 else 0
  }

  /** Where the first block end is, and how long it is. */
  datatype Cut = Cut(at: nat, len: nat)

  function FirstEnd(s: string): (c: Option<Cut>)
    ensures c.Some? ==> 2 <= c.value.len && c.value.at + c.value.len <= |s|
  {
    if s == "" then None
    else if EndHere(s) > 0 then Some(Cut(0, EndHere(s)))
    else
      match FirstEnd(s[1..])
      case None => None
      case Some(c) => Some(Cut(c.at + 1, c.len))
  }

  /** The blocks that have ended, and what is left. */
  datatype Blocks = Blocks(ended: seq<string>, left: string)

  function Cuts(s: string): (r: Blocks)
    decreases |s|
  {
    match FirstEnd(s)
    case None => Blocks([], s)
    case Some(c) =>
      var rest := Cuts(s[c.at + c.len..]);
      Blocks([s[..c.at]] + rest.ended, rest.left)
  }

  lemma CutsUnfold(s: string)
    ensures FirstEnd(s).None? ==> Cuts(s) == Blocks([], s)
    ensures FirstEnd(s).Some? ==>
              var c := FirstEnd(s).value;
              && Cuts(s).ended == [s[..c.at]] + Cuts(s[c.at + c.len..]).ended
              && Cuts(s).left == Cuts(s[c.at + c.len..]).left
  {
    hide FirstEnd;
  }

  // ----- one block -----

  /** `block.split(/\r\n|\n|\r/)`. */
  function SplitLines(s: string): (r: seq<string>)
    ensures |r| > 0
    decreases |s|
  {
    if s == "" then [""]
    else if "\r\n" <= s then [""] + SplitLines(s[2..])
    else if s[0] == '\n' || s[0] == '\r' then [""] + SplitLines(s[1..])
    else
      var rest := SplitLines(s[1..]);
      [[s[0]] + rest[0]] + rest[1..]
  }

  /** The position of the first colon, or the length. */
  function Colon(line: string): (i: nat)
    ensures i <= |line|
  {
    if line == "" || line[0] == ':' then 0 else 1 + Colon(line[1..])
  }

  function WithoutSpace(s: string): (r: string) {
    if s != "" && s[0] == ' ' then s[1..] else s
  }

  /** A frame being filled, and whether anything was put in. */
  datatype Filled = Filled(f: Frame, any: bool)

  function Fill(p: Filled, line: string): (r: Filled) {
    if line == "" then p
    else if line[0] == ':' then Filled(p.f.(comment := true), true)
    else
      var i := Colon(line);
      var key := line[..i];
      var val := if i == |line| then "" else WithoutSpace(line[i + 1..]);
      if key == "id" then Filled(p.f.(id := Some(val)), true)
      else if key == "event" then Filled(p.f.(event := Some(val)), true)
      else if key == "data" then
        Filled(p.f.(data := Some(if p.f.data.None? then val else p.f.data.value + "\n" + val)), true)
      else p
  }

  function FillAll(p: Filled, lines: seq<string>): (r: Filled)
    decreases |lines|
  {
    if lines == [] then p else FillAll(Fill(p, lines[0]), lines[1..])
  }

  function BlockFrame(block: string): (f: Option<Frame>) {
    var p := FillAll(Filled(BLANK, false), SplitLines(block));
    if p.any then Some(p.f) else None
  }

  function FramesOf(blocks: seq<string>): (r: seq<Frame>) {
    if blocks == [] then []
    else (match BlockFrame(blocks[0]) case None => [] case Some(f) => [f]) + FramesOf(blocks[1..])
  }

  lemma FramesUnfold(block: string, rest: seq<string>)
    ensures FramesOf([block] + rest) == (match BlockFrame(block) case None => [] case Some(f) => [f]) + FramesOf(rest)
  {
    hide BlockFrame;
    assert ([block] + rest)[1..] == rest;
  }

  lemma NoFrames()
    ensures FramesOf([]) == []
  {
  }

  method IndexOfColon(line: string) returns (i: int)
    ensures i == if Colon(line) == |line| then -1 else Colon(line)
  {
    var k := 0;
    while k < |line| && line[k] != ':'
      invariant 0 <= k <= |line|
      invariant Colon(line) == k + Colon(line[k..])
    {
      k := k + 1;
    }
    if k == |line| {
      return -1;
    }
    assert line[k..][0] == ':';
    return k;
  }

  method ParseBlock(block: string) returns (r: Option<Frame>)
    ensures r == BlockFrame(block)
  {
    hide SplitLines, Colon;
    var f, any := BLANK, false;
    var lines := SplitLines(block);
    var k := 0;
    assert lines[0..] == lines;
    while k < |lines|
      invariant 0 <= k <= |lines|
      invariant FillAll(Filled(f, any), lines[k..]) == FillAll(Filled(BLANK, false), lines)
    {
      var line := lines[k];
      ghost var was := Filled(f, any);
      assert lines[k..][1..] == lines[k + 1..];
      k := k + 1;
      if line == "" {
        continue;
      }
      if line[0] == ':' {
        f, any := f.(comment := true), true;
        continue;
      }
      var i := IndexOfColon(line);
      var key := if i < 0 then line else line[..i];
      var val := if i < 0 then "" else WithoutSpace(line[i + 1..]);
      assert i < 0 ==> line[..Colon(line)] == line;
      if key == "id" {
        f := f.(id := Some(val));
      } else if key == "event" {
        f := f.(event := Some(val));
      } else if key == "data" {
        f := f.(data := Some(if f.data.None? then val else f.data.value + "\n" + val));
      } else {
        continue;
      }
      any := true;
    }
    return if any then Some(f) else None;
  }

  // ----- the parser -----

  class SseParser {
    var buf: string

    constructor ()
      ensures buf == ""
    {
      buf := "";
    }

    method Push(chunk: string) returns (out: seq<Frame>)
      modifies this
      ensures buf == Cuts(old(buf) + chunk).left
      ensures out == FramesOf(Cuts(old(buf) + chunk).ended)
    {
      hide FirstEnd, BlockFrame, Cuts, FramesOf;
      buf := buf + chunk;
      out := [];
      ghost var all := buf;
      while FirstEnd(buf).Some?
        invariant Cuts(buf).left == Cuts(all).left
        invariant out + FramesOf(Cuts(buf).ended) == FramesOf(Cuts(all).ended)
        decreases |buf|
      {
        var m := FirstEnd(buf).value;
        var block := buf[..m.at];
        CutsUnfold(buf);
        FramesUnfold(block, Cuts(buf[m.at + m.len..]).ended);
        buf := buf[m.at + m.len..];
        var f := ParseBlock(block);
        if f.Some? {
          out := out + [f.value];
        }
      }
      CutsUnfold(buf);
      NoFrames();
    }
  }

  // ----- the cuts between chunks make no difference -----

  /** A block end stays the first one when more text follows. */
  lemma {:induction false} EndStays(a: string, b: string)
    requires FirstEnd(a).Some?
    ensures FirstEnd(a + b) == FirstEnd(a)
  {
    assert (a + b)[1..] == a[1..] + b;
    if EndHere(a) > 0 {
      EndHereStays(a, b);
    } else {
      EndStays(a[1..], b);
      NoEarlierEnd(a, b);
    }
  }

  lemma EndHereStays(a: string, b: string)
    requires EndHere(a) > 0
    ensures EndHere(a + b) == EndHere(a)
  {
    assert forall i :: 0 <= i < |a| ==> (a + b)[i] == a[i];
    if EndHere(a) == 2 {
      assert (a + b)[..2] == a[..2];
      assert (a + b)[1] == a[1] == a[0];
    } else {
      assert (a + b)[..4] == a[..4];
    }
  }

  /** Where a later block end is complete, an earlier one cannot be waiting for more text. */
  lemma NoEarlierEnd(a: string, b: string)
    requires a != "" && EndHere(a) == 0 && FirstEnd(a[1..]).Some?
    ensures EndHere(a + b) == 0
  {
    assert forall i :: 0 <= i < |a| ==> (a + b)[i] == a[i];
    assert |a| >= 3;
    if |a| == 3 {
      ShortEnd(a[1..]);
      assert a[1] == a[1..][0] && a[2] == a[1..][1];
    } else {
      assert (a + b)[..4] == a[..4];
    }
  }

  lemma ShortEnd(s: string)
    requires |s| == 2 && FirstEnd(s).Some?
    ensures s[0] == s[1]
  {
    var last := s[1..];
    assert last[1..] == "";
    assert FirstEnd(last[1..]).None? && EndHere(last) == 0;
    assert FirstEnd(last).None?;
  }

  /** Text in two parts: the blocks of the first part, then those of what it left and the second part. */
  lemma {:induction false} CutsAppend(a: string, b: string)
    ensures Cuts(a + b).ended == Cuts(a).ended + Cuts(Cuts(a).left + b).ended
    ensures Cuts(a + b).left == Cuts(Cuts(a).left + b).left
    decreases |a|
  {
    hide FirstEnd, Cuts;
    CutsUnfold(a);
    match FirstEnd(a)
    case None =>
    case Some(c) =>
      EndStays(a, b);
      CutsUnfold(a + b);
      var n := c.at + c.len;
      CutsAppend(a[n..], b);
      assert (a + b)[n..] == a[n..] + b && (a + b)[..c.at] == a[..c.at];
  }

  lemma {:induction false} FramesAppend(a: seq<string>, b: seq<string>)
    ensures FramesOf(a + b) == FramesOf(a) + FramesOf(b)
  {
    hide BlockFrame;
    if a == [] {
      assert a + b == b;
    } else {
      assert (a + b)[1..] == a[1..] + b;
      FramesAppend(a[1..], b);
    }
  }

  /** What a parser has handed out, and what it holds, after these chunks. */
  function PushAll(chunks: seq<string>): (r: (seq<Frame>, string)) {
    if chunks == [] then ([], "")
    else
      var before := PushAll(chunks[..|chunks| - 1]);
      var cuts := Cuts(before.1 + chunks[|chunks| - 1]);
      (before.0 + FramesOf(cuts.ended), cuts.left)
  }

  /** However a stream is cut into chunks, the frames and what is held back are those of one push of the whole. */
  lemma {:induction false} ChunksMakeNoDifference(chunks: seq<string>)
    ensures PushAll(chunks) == (FramesOf(Cuts(Concat(chunks)).ended), Cuts(Concat(chunks)).left)
  {
    if chunks == [] {
      assert FirstEnd("").None?;
    } else {
      hide Cuts, FramesOf;
      var n := |chunks| - 1;
      ChunksMakeNoDifference(chunks[..n]);
      var text := Concat(chunks[..n]);
      CutsAppend(text, chunks[n]);
      FramesAppend(Cuts(text).ended, Cuts(Cuts(text).left + chunks[n]).ended);
    }
  }

  // ----- what a server writes is read back -----

  predicate NoBreak(s: string) {
    forall i :: 0 <= i < |s| ==> s[i] != '\n' && s[i] != '\r'
  }

  /** A line of a block: not empty, and one line. */
  predicate IsLine(s: string) {
    s != "" && NoBreak(s)
  }

  function Ended(lines: seq<string>): (r: string) {
    if lines == [] then "" else lines[0] + "\n" + Ended(lines[1..])
  }

  /** The lines of a block, each ended, and the empty line that ends the block. */
  function Block(lines: seq<string>): (r: string) {
    Ended(lines) + "\n"
  }

  function Joined(lines: seq<string>): (r: string)
    requires |lines| > 0
  {
    if |lines| == 1 then lines[0] else lines[0] + "\n" + Joined(lines[1..])
  }

  lemma {:induction false} LineAhead(line: string, rest: string)
    requires NoBreak(line) && line != ""
    ensures FirstEnd(line + rest) == match FirstEnd(rest)
                                     case None => None
                                     case Some(c) => Some(Cut(|line| + c.at, c.len))
    decreases |line|
  {
    var text := line + rest;
    assert text[1..] == line[1..] + rest && text[0] == line[0];
    assert EndHere(text) == 0;
    if |line| == 1 {
      assert text[1..] == rest;
    } else {
      LineAhead(line[1..], rest);
    }
  }

  lemma EndAhead(rest: string)
    ensures FirstEnd("\n\n" + rest) == Some(Cut(0, 2))
  {
    var text := "\n\n" + rest;
    assert text[0] == '\n' && text[..2] == "\n\n";
    assert "\n\n" <= text;
    assert !("\r\n\r\n" <= text);
  }

  lemma FeedAhead(tail: string)
    requires tail != "" && tail[0] != '\n'
    ensures FirstEnd("\n" + tail) == match FirstEnd(tail) case None => None case Some(c) => Some(Cut(1 + c.at, c.len))
  {
    var text := "\n" + tail;
    assert text[0] == '\n' && text[1] == tail[0] && text[1..] == tail;
    assert EndHere(text) == 0;
  }

  lemma JoinedStarts(lines: seq<string>)
    requires lines != [] && forall i :: 0 <= i < |lines| ==> IsLine(lines[i])
    ensures IsLine(lines[0]) && Joined(lines) != "" && Joined(lines)[0] == lines[0][0] != '\n'
  {
  }

  /** The first block end after a block's lines is the one that ends it. */
  lemma {:induction false} BlockEnds(lines: seq<string>, rest: string)
    requires lines != [] && forall i :: 0 <= i < |lines| ==> IsLine(lines[i])
    ensures FirstEnd(Joined(lines) + ("\n\n" + rest)) == Some(Cut(|Joined(lines)|, 2))
    decreases |lines|
  {
    hide FirstEnd;
    var line, more := lines[0], lines[1..];
    if more == [] {
      EndAhead(rest);
      LineAhead(line, "\n\n" + rest);
    } else {
      BlockEnds(more, rest);
      JoinedStarts(more);
      var tail := Joined(more) + ("\n\n" + rest);
      assert tail[0] == Joined(more)[0];
      FeedAhead(tail);
      assert Joined(lines) + ("\n\n" + rest) == line + ("\n" + tail);
      LineAhead(line, "\n" + tail);
    }
  }

  lemma {:induction false} BlockIs(lines: seq<string>)
    requires lines != []
    ensures Block(lines) == Joined(lines) + "\n\n"
    decreases |lines|
  {
    if |lines| > 1 {
      BlockIs(lines[1..]);
      assert Block(lines) == lines[0] + "\n" + Block(lines[1..]);
    } else {
      assert Ended(lines[1..]) == "";
    }
  }

  lemma {:induction false} SplitLine(line: string, rest: string)
    requires NoBreak(line)
    ensures SplitLines(line + rest) == [line + SplitLines(rest)[0]] + SplitLines(rest)[1..]
    decreases |line|
  {
    if line == "" {
      assert line + rest == rest;
      assert line + SplitLines(rest)[0] == SplitLines(rest)[0];
    } else {
      var text := line + rest;
      assert text[0] == line[0] && text[1..] == line[1..] + rest;
      assert !("\r\n" <= text);
      SplitLine(line[1..], rest);
      assert [line[0]] + (line[1..] + SplitLines(rest)[0]) == line + SplitLines(rest)[0];
    }
  }

  lemma {:induction false} SplitJoined(lines: seq<string>)
    requires lines != [] && forall i :: 0 <= i < |lines| ==> IsLine(lines[i])
    ensures SplitLines(Joined(lines)) == lines
    decreases |lines|
  {
    hide SplitLines;
    var line := lines[0];
    if |lines| == 1 {
      assert line + "" == line;
      SplitLine(line, "");
      assert SplitLines("") == [""] by {
        SplitNothing();
      }
    } else {
      SplitJoined(lines[1..]);
      var rest := "\n" + Joined(lines[1..]);
      assert Joined(lines) == line + rest;
      SplitLine(line, rest);
      SplitFeed(Joined(lines[1..]));
      assert line + "" == line;
    }
  }

  lemma SplitNothing()
    ensures SplitLines("") == [""]
  {
  }

  lemma SplitFeed(s: string)
    ensures SplitLines("\n" + s) == [""] + SplitLines(s)
  {
    assert ("\n" + s)[1..] == s && ("\n" + s)[0] == '\n';
  }

  /** One block: the parser finds exactly it, and reads exactly its lines. */
  lemma BlockRead(lines: seq<string>, rest: string)
    requires lines != [] && forall i :: 0 <= i < |lines| ==> IsLine(lines[i])
    ensures Cuts(Block(lines) + rest).ended == [Joined(lines)] + Cuts(rest).ended
    ensures Cuts(Block(lines) + rest).left == Cuts(rest).left
    ensures SplitLines(Joined(lines)) == lines
  {
    hide FirstEnd, SplitLines, Joined, Block;
    BlockEnds(lines, rest);
    BlockIs(lines);
    SplitJoined(lines);
    var text := Block(lines) + rest;
    assert text == Joined(lines) + ("\n\n" + rest);
    assert text[..|Joined(lines)|] == Joined(lines) && text[|Joined(lines)| + 2..] == rest;
  }

  /** Text at its line feeds, and back. */
  lemma {:induction false} FeedsBack(s: string)
    ensures Joined(SplitFeeds(s)) == s
  {
    if s != "" {
      FeedsBack(s[1..]);
      var rest := SplitFeeds(s[1..]);
      assert s == [s[0]] + s[1..];
      if s[0] == '\n' {
        assert SplitFeeds(s)[1..] == rest;
        assert Joined(SplitFeeds(s)) == "" + "\n" + Joined(rest);
      } else {
        assert SplitFeeds(s)[1..] == rest[1..];
      }
    }
  }

  lemma {:induction false} FeedsAreLines(s: string)
    requires '\r' !in s
    ensures forall i :: 0 <= i < |SplitFeeds(s)| ==> NoBreak(SplitFeeds(s)[i])
  {
    if s != "" {
      FeedsAreLines(s[1..]);
    }
  }

  function DataLines(parts: seq<string>): (r: seq<string>) {
    if parts == [] then [] else ["data: " + parts[0]] + DataLines(parts[1..])
  }

  /** The lines a server writes for a frame. */
  function LinesOf(f: Frame): (r: seq<string>) {
    (if f.comment then [":"] else [])
    + (if f.id.Some? then ["id: " + f.id.value] else [])
    + (if f.event.Some? then ["event: " + f.event.value] else [])
    + (if f.data.Some? then DataLines(SplitFeeds(f.data.value)) else [])
  }

  /** The frames that can be written: not blank, no line break in an id or an event, no carriage return in the data. */
  predicate Writable(f: Frame) {
    && f != BLANK
    && (f.id.Some? ==> NoBreak(f.id.value))
    && (f.event.Some? ==> NoBreak(f.event.value))
    && (f.data.Some? ==> '\r' !in f.data.value)
  }

  lemma {:induction false} ColonAfter(key: string, rest: string)
    requires ':' !in key
    ensures Colon(key + ":" + rest) == |key|
  {
    var text := key + ":" + rest;
    if key != "" {
      assert text[1..] == key[1..] + ":" + rest && text[0] == key[0];
      ColonAfter(key[1..], rest);
    } else {
      assert text[0] == ':';
    }
  }

  /** A field written `key: value` puts the value there. */
  lemma FieldFills(p: Filled, key: string, val: string)
    requires key == "id" || key == "event" || key == "data"
    ensures Fill(p, key + ": " + val) ==
            if key == "id" then Filled(p.f.(id := Some(val)), true)
            else if key == "event" then Filled(p.f.(event := Some(val)), true)
            else Filled(p.f.(data := Some(if p.f.data.None? then val else p.f.data.value + "\n" + val)), true)
  {
    hide Colon;
    var line := key + ": " + val;
    assert line == key + ":" + (" " + val);
    ColonAfter(key, " " + val);
    assert line[0] == key[0] && line[..|key|] == key && line[|key| + 1..] == " " + val;
    assert (" " + val)[1..] == val;
  }

  lemma {:induction false} FillAppend(p: Filled, a: seq<string>, b: seq<string>)
    ensures FillAll(p, a + b) == FillAll(FillAll(p, a), b)
    decreases |a|
  {
    hide Fill;
    if a == [] {
      assert a + b == b;
    } else {
      assert (a + b)[1..] == a[1..] + b;
      FillAppend(Fill(p, a[0]), a[1..], b);
    }
  }

  lemma Regroup(a: string, n: string, b: string, c: string)
    ensures (a + n + b) + n + c == a + n + (b + n + c)
  {
  }

  lemma {:induction false} DataFills(p: Filled, parts: seq<string>)
    requires parts != []
    ensures FillAll(p, DataLines(parts)) ==
            Filled(p.f.(data := Some(if p.f.data.None? then Joined(parts) else p.f.data.value + "\n" + Joined(parts))),
                   true)
    decreases |parts|
  {
    hide Fill;
    var one := Fill(p, "data: " + parts[0]);
    assert "data" + ": " + parts[0] == "data: " + parts[0];
    FieldFills(p, "data", parts[0]);
    assert DataLines(parts)[1..] == DataLines(parts[1..]);
    if |parts| > 1 {
      DataFills(one, parts[1..]);
      if p.f.data.Some? {
        Regroup(p.f.data.value, "\n", parts[0], Joined(parts[1..]));
      }
    }
  }

  lemma OneFills(p: Filled, line: string)
    ensures FillAll(p, [line]) == Fill(p, line)
  {
    assert [line][1..] == [];
    assert FillAll(Fill(p, line), []) == Fill(p, line);
  }

  /** The lines of a frame fill a frame like it. */
  lemma LinesFill(f: Frame)
    requires Writable(f)
    ensures FillAll(Filled(BLANK, false), LinesOf(f)) == Filled(f, true)
  {
    hide Fill, FillAll;
    var p0 := Filled(BLANK, false);
    var l1 := if f.comment then [":"] else [];
    var l2 := if f.id.Some? then ["id: " + f.id.value] else [];
    var l3 := if f.event.Some? then ["event: " + f.event.value] else [];
    var l4 := if f.data.Some? then DataLines(SplitFeeds(f.data.value)) else [];
    FillAppend(p0, l1 + l2 + l3, l4);
    FillAppend(p0, l1 + l2, l3);
    FillAppend(p0, l1, l2);
    NothingFills(p0);
    CommentFills(p0);
    var p1 := FillAll(p0, l1);
    NothingFills(p1);
    if f.id.Some? {
      OneFills(p1, "id: " + f.id.value);
      assert "id" + ": " + f.id.value == "id: " + f.id.value;
      FieldFills(p1, "id", f.id.value);
    }
    var p2 := FillAll(p1, l2);
    NothingFills(p2);
    if f.event.Some? {
      OneFills(p2, "event: " + f.event.value);
      assert "event" + ": " + f.event.value == "event: " + f.event.value;
      FieldFills(p2, "event", f.event.value);
    }
    var p3 := FillAll(p2, l3);
    NothingFills(p3);
    if f.data.Some? {
      DataFills(p3, SplitFeeds(f.data.value));
      FeedsBack(f.data.value);
    }
  }

  lemma NothingFills(p: Filled)
    ensures FillAll(p, []) == p
  {
  }

  lemma CommentFills(p: Filled)
    ensures FillAll(p, [":"]) == Filled(p.f.(comment := true), true)
  {
    OneFills(p, ":");
  }

  lemma {:induction false} DataLinesAre(parts: seq<string>)
    requires forall i :: 0 <= i < |parts| ==> NoBreak(parts[i])
    ensures |DataLines(parts)| == |parts| && forall i :: 0 <= i < |parts| ==> IsLine(DataLines(parts)[i])
  {
    if parts != [] {
      DataLinesAre(parts[1..]);
    }
  }

  lemma LinesAreLines(f: Frame)
    requires Writable(f)
    ensures LinesOf(f) != [] && forall i :: 0 <= i < |LinesOf(f)| ==> IsLine(LinesOf(f)[i])
  {
    hide DataLines, SplitFeeds;
    if f.data.Some? {
      FeedsAreLines(f.data.value);
      DataLinesAre(SplitFeeds(f.data.value));
    }
  }

  function Written(frames: seq<Frame>): (r: string) {
    if frames == [] then "" else Block(LinesOf(frames[0])) + Written(frames[1..])
  }

  lemma BlockIsFrame(f: Frame)
    requires Writable(f)
    ensures FramesOf([Joined(LinesOf(f))]) == [f]
  {
    hide SplitLines, FillAll, LinesOf, Joined, Writable;
    LinesAreLines(f);
    LinesFill(f);
    SplitJoined(LinesOf(f));
    assert BlockFrame(Joined(LinesOf(f))) == Some(f);
    assert [Joined(LinesOf(f))][1..] == [];
  }

  lemma NothingWritten()
    ensures FramesOf(Cuts("").ended) == [] && Cuts("").left == ""
  {
    assert FirstEnd("").None?;
  }

  lemma {:induction false} WrittenRead(frames: seq<Frame>)
    requires forall i :: 0 <= i < |frames| ==> Writable(frames[i])
    ensures FramesOf(Cuts(Written(frames)).ended) == frames && Cuts(Written(frames)).left == ""
    decreases |frames|
  {
    hide Cuts, Block, LinesOf, FramesOf, Writable, Joined, IsLine;
    if frames == [] {
      NothingWritten();
    } else {
      var f, rest := frames[0], Written(frames[1..]);
      WrittenRead(frames[1..]);
      LinesAreLines(f);
      BlockRead(LinesOf(f), rest);
      FramesAppend([Joined(LinesOf(f))], Cuts(rest).ended);
      BlockIsFrame(f);
      assert frames == [f] + frames[1..];
    }
  }

  /**
   Whatever frames a server writes, cut anywhere on the way, are the frames that are read, and nothing is held back.
   */
  lemma ReadAsWritten(frames: seq<Frame>, chunks: seq<string>)
    requires forall i :: 0 <= i < |frames| ==> Writable(frames[i])
    requires Concat(chunks) == Written(frames)
    ensures PushAll(chunks) == (frames, "")
  {
    ChunksMakeNoDifference(chunks);
    WrittenRead(frames);
  }
}

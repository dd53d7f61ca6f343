/** What the marker hook promises about every request. */
module PromptCacheLaws {
  import opened Wrappers
  import opened Json
  import opened PromptCache

  // ----- the places after a change -----

  lemma FieldPut(v: Value, key: string, value: Value, other: string)
    requires v.Obj?
    ensures Field(Obj(Put(v.members, key, value)), other) == if other == key then value else Field(v, other)
    ensures Has(Obj(Put(v.members, key, value)), other) == (other == key || Has(v, other))
  {
    GetPut(v.members, key, value, other);
  }

  lemma MarkedIs(v: Value, marker: Value)
    requires v.Obj? && marker != Null
    ensures Marked(WithMark(v, marker))
    ensures Markable(WithMark(v, marker)) == Markable(v)
    ensures Eligible(WithMark(v, marker)) == Eligible(v)
    ensures Field(WithMark(v, marker), "function") == Field(v, "function")
  {
    hide Field, Has, Get, Put;
    FieldPut(v, MARK, marker, MARK);
    FieldPut(v, MARK, marker, "type");
    FieldPut(v, MARK, marker, "input_schema");
    FieldPut(v, MARK, marker, "name");
    FieldPut(v, MARK, marker, "function");
  }

  lemma {:induction false} AllToolsAt(tools: seq<Value>, k: nat, v: Value)
    requires k < |tools|
    ensures AllTools(tools[k := v]) == AllTools(tools) - ToolMarkers(tools[k]) + ToolMarkers(v)
  {
    hide ToolMarkers;
    if k == 0 {
      assert tools[k := v][1..] == tools[1..];
    } else {
      assert tools[k := v][1..] == tools[1..][k - 1 := v];
      AllToolsAt(tools[1..], k - 1, v);
    }
  }

  lemma {:induction false} AllEntriesAt(entries: seq<Value>, k: nat, v: Value)
    requires k < |entries|
    ensures AllEntries(entries[k := v]) == AllEntries(entries) - EntryMarkers(entries[k]) + EntryMarkers(v)
  {
    hide EntryMarkers;
    if k == 0 {
      assert entries[k := v][1..] == entries[1..];
    } else {
      assert entries[k := v][1..] == entries[1..][k - 1 := v];
      AllEntriesAt(entries[1..], k - 1, v);
    }
  }

  lemma {:induction false} BlockMarkersAt(blocks: seq<Value>, k: nat, v: Value)
    requires k < |blocks|
    ensures BlockMarkers(blocks[k := v]) == BlockMarkers(blocks) - One(Marked(blocks[k])) + One(Marked(v))
  {
    hide Marked;
    if k == 0 {
      assert blocks[k := v][1..] == blocks[1..];
    } else {
      assert blocks[k := v][1..] == blocks[1..][k - 1 := v];
      BlockMarkersAt(blocks[1..], k - 1, v);
    }
  }

  lemma {:induction false} LastMarkableAt(blocks: seq<Value>, v: Value)
    requires LastMarkable(blocks) >= 0 && Markable(v)
    ensures LastMarkable(blocks[LastMarkable(blocks) := v]) == LastMarkable(blocks)
  {
    hide Markable;
    var n, k := |blocks| - 1, LastMarkable(blocks);
    if k < n {
      LastMarkableAt(blocks[..n], v);
      assert blocks[k := v][..n] == blocks[..n][k := v] && blocks[k := v][n] == blocks[n];
    }
  }

  lemma {:induction false} LastEligibleAt(tools: seq<Value>, v: Value)
    requires LastEligible(tools) >= 0 && Eligible(v)
    ensures LastEligible(tools[LastEligible(tools) := v]) == LastEligible(tools)
  {
    hide Eligible;
    var n, k := |tools| - 1, LastEligible(tools);
    if k < n {
      LastEligibleAt(tools[..n], v);
      assert tools[k := v][..n] == tools[..n][k := v] && tools[k := v][n] == tools[n];
    }
  }

  // ----- one tool, one message -----

  lemma ToolGains(tools: seq<Value>, marker: Value)
    requires marker != Null
    ensures AllTools(ToolsAfter(tools, marker)) == AllTools(tools) + One(ToolLacks(tools))
    ensures !ToolLacks(ToolsAfter(tools, marker))
  {
    hide Marked, Eligible, WithMark, LastEligible;
    if ToolLacks(tools) {
      var k := LastEligible(tools);
      OnlyObjects(tools[k]);
      var v := WithMark(tools[k], marker);
      MarkedIs(tools[k], marker);
      AllToolsAt(tools, k, v);
      LastEligibleAt(tools, v);
    }
  }

  /** The message has no marker where it would get one. */
  predicate Lacks(msg: Value)
    requires CanCarry(msg)
  {
    var c := Field(msg, "content");
    c.Str? || !Marked(c.items[LastMarkable(c.items)])
  }

  lemma MessageGains(msg: Value, marker: Value)
    requires CanCarry(msg) && marker != Null
    ensures EntryMarkers(Carrying(msg, marker)) == EntryMarkers(msg) + One(Lacks(msg))
    ensures CanCarry(Carrying(msg, marker)) && !Lacks(Carrying(msg, marker))
  {
    var c := Field(msg, "content");
    if c.Str? {
      TextBlockIs(c.s, marker);
      var blocks := [TextBlock(c.s, marker)];
      FieldPut(msg, "content", Arr(blocks), "content");
      FieldPut(msg, "content", Arr(blocks), MARK);
      hide Markable, Marked, Put, Get, TextBlock;
      assert blocks[1..] == [];
      assert BlockMarkers(blocks) == 1;
      assert LastMarkable(blocks) == 0;
      assert One(Marked(msg)) == One(Marked(Carrying(msg, marker))) by {
        SameMark(msg, Arr(blocks));
      }
    } else if Lacks(msg) {
      hide Markable, Marked, Put, Get, WithMark;
      var k := LastMarkable(c.items);
      OnlyObjectsMarkable(c.items[k]);
      var v := WithMark(c.items[k], marker);
      MarkedIs(c.items[k], marker);
      var blocks := c.items[k := v];
      BlockMarkersAt(c.items, k, v);
      LastMarkableAt(c.items, v);
      FieldPut(msg, "content", Arr(blocks), "content");
      SameMark(msg, Arr(blocks));
    }
  }

  lemma SameMark(msg: Value, content: Value)
    requires msg.Obj?
    ensures Marked(Obj(Put(msg.members, "content", content))) == Marked(msg)
  {
    FieldPut(msg, "content", content, MARK);
  }

  lemma TextBlockIs(text: string, marker: Value)
    requires marker != Null
    ensures Markable(TextBlock(text, marker)) && Marked(TextBlock(text, marker))
  {
    var b := TextBlock(text, marker).members;
    assert b[1..][1..][0] == b[2] && b[1..][0] == b[1];
    assert Get(b[1..][1..], MARK) == Some(marker);
    assert Get(b[1..], MARK) == Some(marker);
    assert Get(b, MARK) == Some(marker);
    assert Get(b, "type") == Some(Str("text"));
  }

  // ----- the whole request -----

  lemma MessagesLeaveTools(data: seq<Member>, messages: Value)
    ensures Field(Obj(Put(data, "messages", messages)), "tools") == Field(Obj(data), "tools")
    ensures Field(Obj(Put(data, "messages", messages)), "system") == Field(Obj(data), "system")
    ensures Field(Obj(Put(data, "messages", messages)), "messages") == messages
  {
    FieldPut(Obj(data), "messages", messages, "tools");
    FieldPut(Obj(data), "messages", messages, "system");
    FieldPut(Obj(data), "messages", messages, "messages");
  }

  lemma PutToolsCount(data: seq<Member>, marker: Value)
    requires marker != Null
    ensures Count(data) <= Count(PutTools(data, marker)) <= Count(data) + 1
    ensures Field(Obj(PutTools(data, marker)), "messages") == Field(Obj(data), "messages")
    ensures PutTools(PutTools(data, marker), marker) == PutTools(data, marker)
  {
    hide ToolLacks, ToolsAfter, AllTools, AllEntries, Put, Get;
    var tools := Field(Obj(data), "tools");
    if tools.Arr? {
      ToolGains(tools.items, marker);
      ToolsLeaveMessages(data, Arr(ToolsAfter(tools.items, marker)));
    }
  }

  lemma {:induction false} TargetStays(messages: seq<Value>, marker: Value)
    requires marker != Null && Target(messages) >= 0
    ensures Target(MessagesAfter(messages, marker)) == Target(messages)
    ensures MessagesAfter(MessagesAfter(messages, marker), marker) == MessagesAfter(messages, marker)
    ensures AllEntries(messages) <= AllEntries(MessagesAfter(messages, marker)) <= AllEntries(messages) + 1
  {
    hide CanCarry, Lacks, EntryMarkers, AllEntries;
    var k := Target(messages);
    var msg := messages[k];
    MessageGains(msg, marker);
    AllEntriesAt(messages, k, Carrying(msg, marker));
    CarriesOnce(Carrying(msg, marker), marker);
  }

  lemma CarriesOnce(msg: Value, marker: Value)
    requires CanCarry(msg) && !Lacks(msg)
    ensures Carrying(msg, marker) == msg
  {
  }

  lemma PutMessagesCount(data: seq<Member>, marker: Value)
    requires marker != Null
    ensures Count(data) <= Count(PutMessages(data, marker)) <= Count(data) + 1
    ensures Field(Obj(PutMessages(data, marker)), "tools") == Field(Obj(data), "tools")
    ensures Field(Obj(PutMessages(data, marker)), "messages").Arr? == Field(Obj(data), "messages").Arr?
    ensures PutMessages(PutMessages(data, marker), marker) == PutMessages(data, marker)
  {
    hide Target, MessagesAfter, AllTools, AllEntries, Put, Get;
    var messages := Field(Obj(data), "messages");
    if messages.Arr? && Target(messages.items) >= 0 {
      TargetStays(messages.items, marker);
      var after := Arr(MessagesAfter(messages.items, marker));
      MessagesLeaveTools(data, after);
      PutPut(data, "messages", after, after);
    }
  }

  /** The markers never go over four, nor over what the caller placed. */
  lemma NeverOverTheCap(data: seq<Member>, marker: Value)
    requires marker != Null
    ensures Count(data) <= Count(Injected(data, marker))
    ensures Count(Injected(data, marker)) <= MAX_BREAKPOINTS || Count(Injected(data, marker)) == Count(data)
  {
    hide Count, PutTools, PutMessages;
    PutToolsCount(data, marker);
    PutMessagesCount(data, marker);
    PutMessagesCount(PutTools(data, marker), marker);
  }

  predicate ToolsDone(data: seq<Member>) {
    var tools := Field(Obj(data), "tools");
    tools.Arr? ==> !ToolLacks(tools.items)
  }

  lemma ToolsSettled(data: seq<Member>, marker: Value)
    requires marker != Null
    ensures ToolsDone(PutTools(data, marker))
    ensures ToolsDone(PutMessages(PutTools(data, marker), marker))
    ensures PutTools(PutMessages(PutTools(data, marker), marker), marker) == PutMessages(PutTools(data, marker), marker)
  {
    hide ToolLacks, ToolsAfter, PutMessages, Put, Get;
    var tools := Field(Obj(data), "tools");
    if tools.Arr? {
      ToolGains(tools.items, marker);
      ToolsLeaveMessages(data, Arr(ToolsAfter(tools.items, marker)));
    }
    PutMessagesCount(PutTools(data, marker), marker);
  }

  /** Running the hook again changes nothing. */
  lemma InjectTwice(data: seq<Member>, marker: Value)
    requires marker != Null
    ensures Injected(Injected(data, marker), marker) == Injected(data, marker)
  {
    hide Count, PutMessages, PutTools;
    NeverOverTheCap(data, marker);
    PutToolsCount(data, marker);
    PutMessagesCount(data, marker);
    PutMessagesCount(PutTools(data, marker), marker);
    ToolsSettled(data, marker);
  }

  // ----- nothing else changes -----

  /** The same, or the same with a marker where there was none. */
  ghost predicate ToolGrown(t: Value, t': Value, marker: Value) {
    t' == t || (Eligible(t) && t.Obj? && ToolMarkers(t) == 0 && t' == WithMark(t, marker))
  }

  ghost predicate BlockGrown(b: Value, b': Value, marker: Value) {
    b' == b || (Markable(b) && b.Obj? && !Marked(b) && b' == WithMark(b, marker))
  }

  /** A text is the same as its one text block. */
  ghost predicate ContentGrown(c: Value, c': Value, marker: Value) {
    || c' == c
    || (c.Str? && c' == Arr([TextBlock(c.s, marker)]))
    || (c.Arr? && c'.Arr? && |c'.items| == |c.items|
        && exists k :: 0 <= k < |c.items| && BlockGrown(c.items[k], c'.items[k], marker)
                       && c'.items == c.items[k := c'.items[k]])
  }

  ghost predicate MessageGrown(m: Value, m': Value, marker: Value) {
    || m' == m
    || (m.Obj? && exists c :: ContentGrown(Field(m, "content"), c, marker) && m' == Obj(Put(m.members, "content", c)))
  }

  /** A list stays a list; anything else at that name, or nothing, is what it was. */
  ghost predicate ListOrSame(data: seq<Member>, data': seq<Member>, key: string) {
    var v, v' := Get(data, key), Get(data', key);
    if v.Some? && v.value.Arr? then v'.Some? && v'.value.Arr? else v' == v
  }

  /** At most one tool, at most one message, and every other member of the request is what it was. */
  ghost predicate Grown(data: seq<Member>, data': seq<Member>, marker: Value) {
    var tools, tools' := Items(Field(Obj(data), "tools")), Items(Field(Obj(data'), "tools"));
    var messages, messages' := Items(Field(Obj(data), "messages")), Items(Field(Obj(data'), "messages"));
    && (forall key :: key != "tools" && key != "messages" ==> Get(data', key) == Get(data, key))
    && ListOrSame(data, data', "tools") && ListOrSame(data, data', "messages")
    && |tools'| == |tools| && |messages'| == |messages|
    && (tools' == tools
        || exists k :: 0 <= k < |tools| && ToolGrown(tools[k], tools'[k], marker) && tools' == tools[k := tools'[k]])
    && (messages' == messages
        || exists k :: 0 <= k < |messages| && MessageGrown(messages[k], messages'[k], marker)
                       && messages' == messages[k := messages'[k]])
  }

  lemma CarryingGrows(msg: Value, marker: Value)
    requires CanCarry(msg)
    ensures MessageGrown(msg, Carrying(msg, marker), marker)
  {
    hide Markable, Marked, WithMark, TextBlock, Get, Put;
    var c := Field(msg, "content");
    if c.Str? {
      assert ContentGrown(c, Arr([TextBlock(c.s, marker)]), marker);
    } else if Lacks(msg) {
      var k := LastMarkable(c.items);
      OnlyObjectsMarkable(c.items[k]);
      var v := WithMark(c.items[k], marker);
      assert BlockGrown(c.items[k], c.items[k := v][k], marker);
      assert c.items[k := v] == c.items[k := c.items[k := v][k]];
      assert ContentGrown(c, Arr(c.items[k := v]), marker);
    }
  }

  lemma PutToolsGrows(data: seq<Member>, marker: Value)
    ensures Grown(data, PutTools(data, marker), marker)
    ensures Field(Obj(PutTools(data, marker)), "messages") == Field(Obj(data), "messages")
    ensures Get(PutTools(data, marker), "messages") == Get(data, "messages")
  {
    hide Marked, Eligible, WithMark, LastEligible, Get, Put, MessageGrown;
    var tools := Field(Obj(data), "tools");
    if tools.Arr? && ToolLacks(tools.items) {
      var k := LastEligible(tools.items);
      OnlyObjects(tools.items[k]);
      var after := ToolsAfter(tools.items, marker);
      ToolsLeaveMessages(data, Arr(after));
      forall key
        ensures Get(Put(data, "tools", Arr(after)), key) == if key == "tools" then Some(Arr(after)) else Get(data, key)
      {
        GetPut(data, "tools", Arr(after), key);
      }
      assert ToolGrown(tools.items[k], after[k], marker);
      assert after == tools.items[k := after[k]];
    }
  }

  lemma PutMessagesGrows(data: seq<Member>, marker: Value)
    ensures var d := PutMessages(data, marker);
            && (forall key :: key != "messages" ==> Get(d, key) == Get(data, key))
            && ListOrSame(data, d, "messages")
            && Field(Obj(d), "tools") == Field(Obj(data), "tools")
            && var messages, messages' := Items(Field(Obj(data), "messages")), Items(Field(Obj(d), "messages"));
            && |messages'| == |messages|
            && (messages' == messages
                || exists k :: 0 <= k < |messages| && MessageGrown(messages[k], messages'[k], marker)
                               && messages' == messages[k := messages'[k]])
  {
    hide CanCarry, Carrying, Target, Get, Put, MessageGrown;
    var messages := Field(Obj(data), "messages");
    if messages.Arr? && Target(messages.items) >= 0 {
      var k := Target(messages.items);
      var after := MessagesAfter(messages.items, marker);
      MessagesLeaveTools(data, Arr(after));
      forall key
        ensures Get(Put(data, "messages", Arr(after)), key) ==
                if key == "messages" then Some(Arr(after)) else Get(data, key)
      {
        GetPut(data, "messages", Arr(after), key);
      }
      CarryingGrows(messages.items[k], marker);
      assert MessageGrown(messages.items[k], after[k], marker);
      assert after == messages.items[k := after[k]];
    }
  }

  /** Only an eligible tool and an eligible block gain a marker where there was none; everything else is as it was. */
  lemma NothingElseChanges(data: seq<Member>, marker: Value)
    ensures Grown(data, Injected(data, marker), marker)
  {
    hide Get, Put, MessageGrown, ToolGrown, PutTools, PutMessages, Count;
    PutToolsGrows(data, marker);
    PutMessagesGrows(data, marker);
    PutMessagesGrows(PutTools(data, marker), marker);
  }
}

/**
 Adding cache markers to a request on its way to the model (deploy/litellm/prompt_cache_hook.py): at most four in
 all, only where the API accepts one, and nothing else touched.
 */
module PromptCache {
  import opened Wrappers
  import opened Json

  const MAX_BREAKPOINTS: int := 4

  const MARKABLE_TYPES := {"text", "tool_use", "tool_result", "image", "document"}

  const MARK := "cache_control"

  // ----- where markers are, and where they may go -----

  function Field(v: Value, key: string): (r: Value) {
    if v.Obj? && Get(v.members, key).Some? then Get(v.members, key).value else Null
  }

  predicate Marked(v: Value) {
    Field(v, MARK) != Null
  }

  predicate Markable(block: Value) {
    var t := Field(block, "type");
    block.Obj? && t.Str? && t.s in MARKABLE_TYPES
  }

  predicate Has(v: Value, key: string) {
    v.Obj? && Get(v.members, key).Some?
  }

  predicate Eligible(tool: Value) {
    var t := Field(tool, "type");
    && tool.Obj?
    && if t.Str? then t.s == "function" || t.s == "custom" || t.s == ""
       else (Has(tool, "input_schema") && Has(tool, "name")) || Field(tool, "function") != Null
  }

  /** The items of a list; none when it is not one. */
  function Items(v: Value): (r: seq<Value>) {
    if v.Arr? then v.items else []
  }

  function One(b: bool): (n: nat) {
    if b then 1 else 0
  }

  function ToolMarkers(t: Value): (n: nat) {
    One(Marked(t)) + One(Marked(Field(t, "function")))
  }

  function BlockMarkers(blocks: seq<Value>): (n: nat) {
    if blocks == [] then 0 else One(Marked(blocks[0])) + BlockMarkers(blocks[1..])
  }

  function EntryMarkers(e: Value): (n: nat) {
    One(Marked(e)) + BlockMarkers(Items(Field(e, "content")))
  }

  function AllTools(tools: seq<Value>): (n: nat) {
    if tools == [] then 0 else ToolMarkers(tools[0]) + AllTools(tools[1..])
  }

  function AllEntries(entries: seq<Value>): (n: nat) {
    if entries == [] then 0 else EntryMarkers(entries[0]) + AllEntries(entries[1..])
  }

  /** The markers a request carries. */
  function Count(data: seq<Member>): (n: nat) {
    AllTools(Items(Field(Obj(data), "tools"))) + AllEntries(Items(Field(Obj(data), "system")))
    + AllEntries(Items(Field(Obj(data), "messages")))
  }

  // ----- what is added -----

  function WithMark(v: Value, marker: Value): (r: Value)
    requires v.Obj?
  {
    Obj(Put(v.members, MARK, marker))
  }

  /** The last block that takes a marker, or -1. */
  function LastMarkable(blocks: seq<Value>): (k: int)
    ensures -1 <= k < |blocks|
    ensures k >= 0 ==> Markable(blocks[k])
  {
    if blocks == [] then -1
    else if Markable(blocks[|blocks| - 1]) then |blocks| - 1
    else LastMarkable(blocks[..|blocks| - 1])
  }

  /** The last tool that takes a marker, or -1. */
  function LastEligible(tools: seq<Value>): (k: int)
    ensures -1 <= k < |tools|
    ensures k >= 0 ==> Eligible(tools[k])
  {
    if tools == [] then -1
    else if Eligible(tools[|tools| - 1]) then |tools| - 1
    else LastEligible(tools[..|tools| - 1])
  }

  function TextBlock(text: string, marker: Value): (r: Value) {
    Obj([Member("type", Str("text")), Member("text", Str(text)), Member(MARK, marker)])
  }

  predicate CanCarry(msg: Value) {
    var c := Field(msg, "content");
    msg.Obj? && (c.Str? || (c.Arr? && LastMarkable(c.items) >= 0))
  }

  /** The message with a marker on its last block that takes one. */
  function Carrying(msg: Value, marker: Value): (r: Value)
    requires CanCarry(msg)
  {
    var c := Field(msg, "content");
    if c.Str? then Obj(Put(msg.members, "content", Arr([TextBlock(c.s, marker)])))
    else
      var k := LastMarkable(c.items);
      if Marked(c.items[k]) then msg
      else Obj(Put(msg.members, "content", Arr(c.items[k := WithMark(c.items[k], marker)])))
  }

  /**
   The message before the last, else the one before it, else the last: the first that can carry a marker; -1 when none
   can.
   */
  function Target(messages: seq<Value>): (k: int)
    ensures -1 <= k < |messages|
    ensures k >= 0 ==> CanCarry(messages[k])
  {
    var n := |messages|;
    if n >= 2 && CanCarry(messages[n - 2]) then n - 2
    else if n >= 3 && CanCarry(messages[n - 3]) then n - 3
    else if n >= 1 && CanCarry(messages[n - 1]) then n - 1
    else -1
  }

  /** The last eligible tool has no marker yet. */
  predicate ToolLacks(tools: seq<Value>) {
    var k := LastEligible(tools);
    k >= 0 && ToolMarkers(tools[k]) == 0
  }

  function ToolsAfter(tools: seq<Value>, marker: Value): (r: seq<Value>) {
    if ToolLacks(tools) then tools[LastEligible(tools) := WithMark(tools[LastEligible(tools)], marker)] else tools
  }

  function MessagesAfter(messages: seq<Value>, marker: Value): (r: seq<Value>) {
    var k := Target(messages);
    if k >= 0 then messages[k := Carrying(messages[k], marker)] else messages
  }

  function PutTools(data: seq<Member>, marker: Value): (r: seq<Member>) {
    var tools := Field(Obj(data), "tools");
    if tools.Arr? && ToolLacks(tools.items) then Put(data, "tools", Arr(ToolsAfter(tools.items, marker))) else data
  }

  function PutMessages(data: seq<Member>, marker: Value): (r: seq<Member>) {
    var messages := Field(Obj(data), "messages");
    if messages.Arr? && Target(messages.items) >= 0
    then Put(data, "messages", Arr(MessagesAfter(messages.items, marker))) else data
  }

  function Injected(data: seq<Member>, marker: Value): (r: seq<Member>) {
    var budget := MAX_BREAKPOINTS - Count(data);
    if !Field(Obj(data), "messages").Arr? || budget <= 0 then data
    else PutMessages(if budget > 1 then PutTools(data, marker) else data, marker)
  }

  // ----- the hook -----

  method CountBlocks(blocks: seq<Value>) returns (n: nat)
    ensures n == BlockMarkers(blocks)
  {
    hide Marked;
    n := 0;
    var i := 0;
    while i < |blocks|
      invariant 0 <= i <= |blocks|
      invariant n + BlockMarkers(blocks[i..]) == BlockMarkers(blocks)
    {
      assert blocks[i..][1..] == blocks[i + 1..];
      if Marked(blocks[i]) {
        n := n + 1;
      }
      i := i + 1;
    }
  }

  method CountTools(tools: seq<Value>) returns (n: nat)
    ensures n == AllTools(tools)
  {
    hide Marked;
    n := 0;
    var i := 0;
    while i < |tools|
      invariant 0 <= i <= |tools|
      invariant n + AllTools(tools[i..]) == AllTools(tools)
    {
      assert tools[i..][1..] == tools[i + 1..];
      if Marked(tools[i]) {
        n := n + 1;
      }
      if Marked(Field(tools[i], "function")) {
        n := n + 1;
      }
      i := i + 1;
    }
  }

  method CountEntries(entries: seq<Value>) returns (n: nat)
    ensures n == AllEntries(entries)
  {
    hide Marked, BlockMarkers;
    n := 0;
    var i := 0;
    while i < |entries|
      invariant 0 <= i <= |entries|
      invariant n + AllEntries(entries[i..]) == AllEntries(entries)
    {
      assert entries[i..][1..] == entries[i + 1..];
      if Marked(entries[i]) {
        n := n + 1;
      }
      var blocks := CountBlocks(Items(Field(entries[i], "content")));
      n := n + blocks;
      i := i + 1;
    }
  }

  method CountExistingMarkers(data: seq<Member>) returns (n: nat)
    ensures n == Count(data)
  {
    n := CountTools(Items(Field(Obj(data), "tools")));
    var system := CountEntries(Items(Field(Obj(data), "system")));
    var messages := CountEntries(Items(Field(Obj(data), "messages")));
    n := n + system + messages;
  }

  /** The message with a marker, and whether it carries one now. */
  method InjectOnMessage(msg: Value, marker: Value) returns (r: Value, done: bool)
    requires msg.Obj?
    ensures done == CanCarry(msg)
    ensures r == if done then Carrying(msg, marker) else msg
  {
    hide Markable, Marked, Put, Get, WithMark;
    var content := Field(msg, "content");
    if content.Str? {
      return Obj(Put(msg.members, "content", Arr([TextBlock(content.s, marker)]))), true;
    }
    if content.Arr? {
      var blocks := content.items;
      var i := |blocks|;
      assert blocks[..i] == blocks;
      while i > 0
        invariant 0 <= i <= |blocks|
        invariant LastMarkable(blocks) == LastMarkable(blocks[..i])
      {
        i := i - 1;
        var block := blocks[i];
        assert blocks[..i + 1][..i] == blocks[..i] && blocks[..i + 1][i] == block;
        if !Markable(block) {
          continue;
        }
        assert LastMarkable(blocks) == i;
        OnlyObjectsMarkable(block);
        if !Marked(block) {
          return Obj(Put(msg.members, "content", Arr(blocks[i := WithMark(block, marker)]))), true;
        }
        return msg, true;
      }
    }
    return msg, false;
  }

  /** The tools with a marker on the last eligible one, and whether one was spent. */
  method InjectOnTools(tools: seq<Value>, marker: Value) returns (r: seq<Value>, spent: bool)
    ensures r == ToolsAfter(tools, marker)
    ensures spent == ToolLacks(tools)
  {
    hide Eligible, Marked;
    var i := |tools|;
    assert tools[..i] == tools;
    while i > 0
      invariant 0 <= i <= |tools|
      invariant LastEligible(tools) == LastEligible(tools[..i])
    {
      i := i - 1;
      var tool := tools[i];
      assert tools[..i + 1][..i] == tools[..i] && tools[..i + 1][i] == tool;
      if !tool.Obj? || !Eligible(tool) {
        OnlyObjects(tool);
        continue;
      }
      assert LastEligible(tools) == i;
      if Marked(tool) || Marked(Field(tool, "function")) {
        return tools, false;
      }
      return tools[i := WithMark(tool, marker)], true;
    }
    return tools, false;
  }

  lemma OnlyObjectsMarkable(block: Value)
    ensures Markable(block) ==> block.Obj?
  {
  }

  lemma OnlyObjects(tool: Value)
    ensures Eligible(tool) ==> tool.Obj?
  {
  }

  /** A request being prepared. */
  class Request {
    var data: seq<Member>

    constructor (data: seq<Member>)
      ensures this.data == data
    {
      this.data := data;
    }

    method Inject(marker: Value)
      modifies this
      ensures data == Injected(old(data), marker)
    {
      hide Count, Target, ToolLacks, ToolsAfter, Carrying, CanCarry, Put;
      var messages := Field(Obj(data), "messages");
      if !messages.Arr? {
        return;
      }
      var markers := CountExistingMarkers(data);
      var budget := MAX_BREAKPOINTS - markers;
      if budget <= 0 {
        return;
      }
      var tools := Field(Obj(data), "tools");
      if budget > 1 && tools.Arr? && tools.items != [] {
        var after, spent := InjectOnTools(tools.items, marker);
        if spent {
          data := Put(data, "tools", Arr(after));
          ToolsLeaveMessages(old(data), Arr(after));
          budget := budget - 1;
        }
      } else if tools.Arr? && tools.items == [] {
        NoToolLacks(tools.items);
      }
      if budget <= 0 {
        return;
      }
      InjectOnMessages(messages.items, marker);
    }

    /** The loop over the three candidates. */
    method InjectOnMessages(messages: seq<Value>, marker: Value)
      requires Field(Obj(data), "messages") == Arr(messages)
      modifies this
      ensures data == PutMessages(old(data), marker)
    {
      hide CanCarry, Carrying, Put, Get, Target;
      var i := 0;
      while i < 3
        invariant 0 <= i <= 3
        invariant data == old(data)
        invariant NoneOf(messages, i)
      {
        var k := |messages| - Back(i);
        TargetAt(messages, i);
        if k >= 0 && messages[k].Obj? {
          var msg, done := InjectOnMessage(messages[k], marker);
          if done {
            data := Put(data, "messages", Arr(messages[k := msg]));
            return;
          }
        } else if k >= 0 {
          OnlyObjectsCarry(messages[k]);
        }
        i := i + 1;
      }
      NoTarget(messages);
    }
  }

  /** How far from the end the candidates are, in the order they are tried. */
  function Back(i: nat): (n: nat) {
    if i == 0 then 2 else if i == 1 then 3 else 1
  }

  /** None of the first `i` candidates can carry a marker. */
  predicate NoneOf(messages: seq<Value>, i: nat) {
    forall j :: 0 <= j < i ==> |messages| >= Back(j) ==> !CanCarry(messages[|messages| - Back(j)])
  }

  lemma TargetAt(messages: seq<Value>, i: nat)
    requires i < 3 && NoneOf(messages, i)
    ensures |messages| >= Back(i) && CanCarry(messages[|messages| - Back(i)]) ==>
            Target(messages) == |messages| - Back(i)
  {
    hide CanCarry;
    assert i > 0 ==> |messages| >= Back(0) ==> !CanCarry(messages[|messages| - Back(0)]);
    assert i > 1 ==> |messages| >= Back(1) ==> !CanCarry(messages[|messages| - Back(1)]);
  }

  lemma NoTarget(messages: seq<Value>)
    requires NoneOf(messages, 3)
    ensures Target(messages) == -1
  {
    hide CanCarry;
    assert |messages| >= Back(0) ==> !CanCarry(messages[|messages| - Back(0)]);
    assert |messages| >= Back(1) ==> !CanCarry(messages[|messages| - Back(1)]);
    assert |messages| >= Back(2) ==> !CanCarry(messages[|messages| - Back(2)]);
  }

  lemma OnlyObjectsCarry(msg: Value)
    ensures CanCarry(msg) ==> msg.Obj?
  {
  }

  lemma NoToolLacks(tools: seq<Value>)
    requires tools == []
    ensures !ToolLacks(tools)
  {
  }

  lemma ToolsLeaveMessages(data: seq<Member>, tools: Value)
    ensures Field(Obj(Put(data, "tools", tools)), "messages") == Field(Obj(data), "messages")
    ensures Field(Obj(Put(data, "tools", tools)), "system") == Field(Obj(data), "system")
    ensures Field(Obj(Put(data, "tools", tools)), "tools") == tools
  {
    GetPut(data, "tools", tools, "messages");
    GetPut(data, "tools", tools, "system");
    GetPut(data, "tools", tools, "tools");
  }
}

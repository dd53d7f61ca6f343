/**
 The command a hook entry runs (connector/src/hooks.ts): written with shell quoting, recognised by its mark, and read
 back.
 */
module HookCommand {
  import opened Text
  import opened Wrappers
  import opened Json
  import opened Hooks
  import opened HooksLaws
  import Q = Quoting

  function Command(node: string, script: string, arg: string, dir: string): (r: string) {
    Q.Sh(node) + " " + Q.Sh(script) + " " + arg + " --dir " + Q.Sh(dir) + " " + MARK
  }

  function Entry(command: string, timeout: int): (r: seq<Member>) {
    [Member("type", Str("command")), Member("command", Str(command)), Member("timeout", Num(timeout))]
  }

  predicate HookScript(script: string) {
    EndsWith(script, "terminal-hook.js") || EndsWith(script, "terminal-hook.ts")
  }

  predicate Argument(arg: string) {
    arg == "start" || arg == "end"
  }

  // ----- ours -----

  lemma EscapedEnd(script: string, name: string)
    requires EndsWith(script, name) && '\'' !in name
    ensures EndsWith(Q.ShEscape(script), name)
  {
    var base := script[..|script| - |name|];
    assert script == base + name;
    Q.ReplaceCharAppend(base, name, '\'', Q.QUOTE);
    Q.ReplaceAbsent(name, '\'', Q.QUOTE);
  }

  lemma RunsHookAt(before: string, name: string, arg: string, after: string)
    requires name == "terminal-hook.js" || name == "terminal-hook.ts"
    requires Argument(arg) && after != "" && after[0] == ' '
    ensures RunsHook(before + name + "'" + " " + arg + after)
  {
    var s := before + name + "'" + " " + arg + after;
    var i := |before|;
    assert s[i..i + 16] == name;
    assert s[i + 16] == '\'' && s[i + 17] == ' ' && Space(' ');
    assert s[i + 18..i + 18 + |arg|] == arg && s[i + 18 + |arg|] == ' ';
    assert SpaceAt(s, i + 17) && AllSpace(s, i + 17, i + 18);
    assert At(s, i + 18, arg) && SpaceAt(s, i + 18 + |arg|);
    assert WordAt(s, i + 17);
    assert ArgumentAt(s, i + 16);
    assert At(s, i, name);
  }

  lemma RegroupFront(n: string, sp: string, q: string, b: string, m: string, a: string)
    ensures n + sp + (q + (b + m) + q) + sp + a == (n + sp + q + b) + m + q + sp + a
  {
  }

  lemma RegroupBack(x: string, t: string, d: string, sp: string, m: string)
    ensures x + t + d + sp + m == x + (t + d + sp + m)
    ensures x + t + d + sp + m == (x + t + d) + (sp + m)
  {
  }

  lemma CommandIsOurs(node: string, script: string, arg: string, dir: string)
    requires HookScript(script) && Argument(arg)
    ensures RunsHook(Command(node, script, arg, dir)) && EndsWith(Command(node, script, arg, dir), " " + MARK)
  {
    hide RunsHook, Q.ShEscape, EndsWith, Argument;
    var name := if EndsWith(script, "terminal-hook.js") then "terminal-hook.js" else "terminal-hook.ts";
    EscapedEnd(script, name);
    var base := Front(Q.ShEscape(script), name);
    var before, after := Q.Sh(node) + " " + "'" + base, " --dir " + Q.Sh(dir) + " " + MARK;
    RunsHookAt(before, name, arg, after);
    RegroupFront(Q.Sh(node), " ", "'", base, name, arg);
    var x := Q.Sh(node) + " " + Q.Sh(script) + " " + arg;
    RegroupBack(x, " --dir ", Q.Sh(dir), " ", MARK);
    AppendEnds(x + " --dir " + Q.Sh(dir), " " + MARK);
  }

  function Front(s: string, suffix: string): (r: string)
    requires EndsWith(s, suffix)
    ensures s == r + suffix
  {
    s[..|s| - |suffix|]
  }

  lemma AppendEnds(front: string, suffix: string)
    ensures EndsWith(front + suffix, suffix)
  {
  }

  // ----- the entry is recognised again -----

  lemma MergeIs(x: Value, command: string, timeout: int)
    requires x.Obj?
    ensures Merge(x, Entry(command, timeout)) ==
            Obj(Put(Put(Put(x.members, "type", Str("command")), "command", Str(command)), "timeout", Num(timeout)))
  {
    var e := Entry(command, timeout);
    var x1 := Obj(Put(x.members, "type", Str("command")));
    var x2 := Obj(Put(x1.members, "command", Str(command)));
    var x3 := Obj(Put(x2.members, "timeout", Num(timeout)));
    assert e[1..][1..][1..] == [];
    assert Merge(x3, []) == x3;
    assert Merge(x2, e[1..][1..]) == x3;
    assert Merge(x1, e[1..]) == x3;
  }

  lemma MergedMembers(ms: seq<Member>, command: string, timeout: int)
    ensures var r := Put(Put(Put(ms, "type", Str("command")), "command", Str(command)), "timeout", Num(timeout));
            && Get(r, "type") == Some(Str("command")) && Get(r, "command") == Some(Str(command))
            && Get(r, "timeout") == Some(Num(timeout))
  {
    hide Get, Put;
    var m1 := Put(ms, "type", Str("command"));
    var m2 := Put(m1, "command", Str(command));
    GetPut(ms, "type", Str("command"), "type");
    GetPut(m1, "command", Str(command), "type");
    GetPut(m1, "command", Str(command), "command");
    GetPut(m2, "timeout", Num(timeout), "type");
    GetPut(m2, "timeout", Num(timeout), "command");
    GetPut(m2, "timeout", Num(timeout), "timeout");
  }

  lemma MergeTwice(x: Value, command: string, timeout: int)
    ensures var e := Entry(command, timeout); Merge(Merge(x, e), e) == Merge(x, e)
  {
    if x.Obj? {
      hide Get, Put, Merge;
      var e := Entry(command, timeout);
      MergeIs(x, command, timeout);
      MergedMembers(x.members, command, timeout);
      var r := Merge(x, e).members;
      MergeIs(Obj(r), command, timeout);
      PutSame(r, "type", Str("command"));
      PutSame(r, "command", Str(command));
      PutSame(r, "timeout", Num(timeout));
    }
  }

  lemma MergeIsOurs(x: Value, command: string, timeout: int)
    requires x.Obj? && RunsHook(command) && EndsWith(command, " " + MARK)
    ensures Ours(Merge(x, Entry(command, timeout)))
  {
    hide Get, Put, Merge, RunsHook, EndsWith;
    MergeIs(x, command, timeout);
    MergedMembers(x.members, command, timeout);
  }

  lemma EntryMembers(command: string, timeout: int)
    ensures var e := Entry(command, timeout);
            && Get(e, "type") == Some(Str("command")) && Get(e, "command") == Some(Str(command))
            && Get(e, "timeout") == Some(Num(timeout))
  {
    var e := Entry(command, timeout);
    var e1, e2 := e[1..], e[2..];
    assert e1[1..] == e2 && e2[0] == e[2] && e1[0] == e[1];
    assert Get(e2, "timeout") == Some(Num(timeout));
    assert Get(e1, "timeout") == Get(e2, "timeout");
  }

  /** Every entry `installHooks` writes is found again by `isOurs`, by itself or spread over an older one. */
  lemma EntryIsRecognised(node: string, script: string, arg: string, dir: string, timeout: int)
    requires HookScript(script) && Argument(arg)
    ensures Recognised(Entry(Command(node, script, arg, dir), timeout))
  {
    hide Get, Put, Merge, RunsHook, EndsWith, Command, Ours;
    var c := Command(node, script, arg, dir);
    CommandIsOurs(node, script, arg, dir);
    var e := Entry(c, timeout);
    EntryMembers(c, timeout);
    assert Ours(Obj(e)) by {
      IsOurs(Obj(e), c);
    }
    forall x ensures Ours(x) ==> Ours(Merge(x, e)) {
      OursIsObj(x);
      if x.Obj? {
        MergeIsOurs(x, c, timeout);
      }
    }
    forall x ensures Merge(Merge(x, e), e) == Merge(x, e) {
      MergeTwice(x, c, timeout);
    }
    MergeIs(Obj(e), c, timeout);
    PutSame(e, "type", Str("command"));
    PutSame(e, "command", Str(c));
    PutSame(e, "timeout", Num(timeout));
  }

  lemma OursIsObj(x: Value)
    ensures Ours(x) ==> x.Obj?
  {
  }

  lemma IsOurs(x: Value, command: string)
    requires x.Obj? && Get(x.members, "type") == Some(Str("command")) && Get(x.members, "command") == Some(Str(command))
    requires RunsHook(command) && EndsWith(command, " " + MARK)
    ensures Ours(x)
  {
  }

  // ----- the words are read back -----

  /** The expression of `hooksStatus` matches and captures `one` and `two`. */
  predicate Captures(command: string, one: string, two: string) {
    Q.ShGroup(one) && Q.ShGroup(two) && "'" + one + "' '" + two + "' " <= command
  }

  lemma FirstGroup(s: string, after: string, group: string)
    requires Q.ShGroup(group) && "'" + group + "' " <= Q.Sh(s) + " " + after
    ensures group == Q.ShEscape(s)
  {
    hide Q.ShEscape, Q.ShGroup, Q.ShCloses;
    var text := Q.Sh(s) + " " + after;
    var e := Q.ShEscape(s);
    var rest := text[1 + |group|..];
    assert text == "'" + (e + ("' " + after));
    assert text[1..] == e + ("' " + after);
    var want := "'" + group + "' ";
    assert text[..|want|] == want;
    assert text[1..1 + |group|] == want[1..1 + |group|] == group;
    assert rest[0] == want[1 + |group|] == '\'' && rest[1] == want[2 + |group|] == ' ';
    assert text[1..] == group + rest;
    NotEscaped(rest);
    NotEscaped("' " + after);
    Q.ShGroupIsAll(s, "' " + after, group, rest);
  }

  lemma NotEscaped(rest: string)
    requires |rest| > 1 && rest[0] == '\'' && rest[1] == ' '
    ensures Q.ShCloses(rest)
  {
  }

  /**
   Whatever the expression captures of a hook command are the node and the script it was made from; and it does match.
   */
  lemma WordsReadBack(node: string, script: string, arg: string, dir: string)
    ensures Captures(Command(node, script, arg, dir), Q.ShEscape(node), Q.ShEscape(script))
    ensures forall one, two :: Captures(Command(node, script, arg, dir), one, two) ==>
              Q.ShUnescape(one) == node && Q.ShUnescape(two) == script
  {
    hide Q.ShEscape, Q.ShGroup, Q.ShUnescape;
    var after := arg + " --dir " + Q.Sh(dir) + " " + MARK;
    var c := Command(node, script, arg, dir);
    assert c == Q.Sh(node) + " " + (Q.Sh(script) + " " + after);
    Q.ShRoundTrip(node);
    Q.ShRoundTrip(script);
    assert c == ("'" + Q.ShEscape(node) + "' '" + Q.ShEscape(script) + "' ") + after;
    forall one, two | Captures(c, one, two) ensures Q.ShUnescape(one) == node && Q.ShUnescape(two) == script {
      SecondGroup(node, script, after, one, two);
    }
  }

  lemma SecondGroup(node: string, script: string, after: string, one: string, two: string)
    requires Captures(Q.Sh(node) + " " + (Q.Sh(script) + " " + after), one, two)
    ensures Q.ShUnescape(one) == node && Q.ShUnescape(two) == script
  {
    hide Q.ShEscape, Q.ShGroup, Q.ShUnescape;
    var rest := Q.Sh(script) + " " + after;
    var c := Q.Sh(node) + " " + rest;
    var want := "'" + one + "' '" + two + "' ";
    assert want == ("'" + one + "' ") + ("'" + two + "' ");
    assert c[..|want|] == want;
    assert "'" + one + "' " <= c by {
      assert c[..3 + |one|] == want[..3 + |one|] == "'" + one + "' ";
    }
    FirstGroup(node, rest, one);
    assert |Q.Sh(node) + " "| == 3 + |one|;
    assert c[3 + |one|..] == rest;
    assert "'" + two + "' " <= rest by {
      assert rest[..3 + |two|] == want[3 + |one|..] == "'" + two + "' ";
    }
    FirstGroup(script, after, two);
    Q.ShRoundTrip(node);
    Q.ShRoundTrip(script);
  }
}

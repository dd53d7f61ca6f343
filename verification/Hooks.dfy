/**
 Installing and removing the connector's entries in a settings.json (connector/src/hooks.ts): merged into whatever
 the file holds, found again by a mark.
 */
module Hooks {
  import opened Text
  import opened Wrappers
  import opened Json

  // ----- which entries are ours -----

  const MARK := "--managed-by claw-connector"

  predicate EndsWith(s: string, suffix: string) {
    |suffix| <= |s| && s[|s| - |suffix|..] == suffix
  }

  /** What `\s` matches. */
  predicate Space(c: char) {
    c in {' ', '\t', '\n', '\r', '\U{000B}', '\U{000C}', '\U{00A0}', '\U{1680}', '\U{2028}', '\U{2029}',
          '\U{202F}', '\U{205F}', '\U{3000}', '\U{FEFF}'}
    || '\U{2000}' <= c <= '\U{200A}'
  }

  predicate SpaceAt(s: string, i: nat) {
    i < |s| && Space(s[i])
  }

  predicate AllSpace(s: string, i: nat, j: nat) {
    i < j && forall k :: i <= k < j ==> SpaceAt(s, k)
  }

  /** From `i` on: white space, `start` or `end`, white space. */
  predicate WordAt(s: string, i: nat) {
    exists j :: 0 <= j <= |s| && AllSpace(s, i, j)
      && ((At(s, j, "start") && SpaceAt(s, j + 5)) || (At(s, j, "end") && SpaceAt(s, j + 3)))
  }

  /** The same after an optional quote. */
  predicate ArgumentAt(s: string, i: nat) {
    WordAt(s, i) || (i < |s| && s[i] in {'"', '\''} && WordAt(s, i + 1))
  }

  /** The command runs the hook script with one of its two arguments. */
  predicate RunsHook(s: string) {
    exists i :: 0 <= i <= |s| && (At(s, i, "terminal-hook.js") || At(s, i, "terminal-hook.ts")) && ArgumentAt(s, i + 16)
  }

  predicate Ours(x: Value) {
    && x.Obj?
    && Get(x.members, "type") == Some(Str("command"))
    && var c := Get(x.members, "command");
    c.Some? && c.value.Str? && EndsWith(c.value.s, " " + MARK) && RunsHook(c.value.s)
  }

  // ----- one event's groups -----

  /** A group that has a list of hooks. */
  predicate IsGroup(g: Value) {
    g.Obj? && Get(g.members, "hooks").Some? && Get(g.members, "hooks").value.Arr?
  }

  function HooksIn(g: Value): (r: seq<Value>)
    requires IsGroup(g)
  {
    Get(g.members, "hooks").value.items
  }

  function WithHooks(g: Value, hooks: seq<Value>): (r: Value)
    requires g.Obj?
  {
    Obj(Put(g.members, "hooks", Arr(hooks)))
  }

  /** The entry spread over what was there. */
  function Merge(x: Value, entry: seq<Member>): (r: Value)
    decreases |entry|
  {
    if entry == [] || !x.Obj? then x else Merge(Obj(Put(x.members, entry[0].key, entry[0].value)), entry[1..])
  }

  function Others(hooks: seq<Value>): (r: seq<Value>) {
    if hooks == [] then [] else (if Ours(hooks[0]) then [] else [hooks[0]]) + Others(hooks[1..])
  }

  function Count(hooks: seq<Value>): (n: nat) {
    if hooks == [] then 0 else (if Ours(hooks[0]) then 1 else 0) + Count(hooks[1..])
  }

  /** A group's hooks after an install: the first entry of ours is brought up to date, any further one dropped. */
  function Kept(hooks: seq<Value>, entry: seq<Member>, seen: bool): (r: seq<Value>) {
    if hooks == [] then []
    else if !Ours(hooks[0]) then [hooks[0]] + Kept(hooks[1..], entry, seen)
    else if seen then Kept(hooks[1..], entry, true)
    else [Merge(hooks[0], entry)] + Kept(hooks[1..], entry, true)
  }

  predicate Drops(hooks: seq<Value>, seen: bool) {
    Count(hooks) > if seen then 0 else 1
  }

  function Updated(groups: seq<Value>, entry: seq<Member>, seen: bool): (r: seq<Value>) {
    if groups == [] then []
    else if !IsGroup(groups[0]) then [groups[0]] + Updated(groups[1..], entry, seen)
    else
      var hooks := HooksIn(groups[0]);
      var kept := Kept(hooks, entry, seen);
      (if Drops(hooks, seen) && kept == [] then [] else [WithHooks(groups[0], kept)])
      + Updated(groups[1..], entry, seen || Count(hooks) > 0)
  }

  function Total(groups: seq<Value>): (n: nat) {
    if groups == [] then 0 else (if IsGroup(groups[0]) then Count(HooksIn(groups[0])) else 0) + Total(groups[1..])
  }

  function Installed(groups: seq<Value>, entry: seq<Member>): (r: seq<Value>) {
    Updated(groups, entry, false) + if Total(groups) > 0 then [] else [Obj([Member("hooks", Arr([Obj(entry)]))])]
  }

  /** The groups after an uninstall: without our entries, and without the groups these left empty. */
  function Removed(groups: seq<Value>): (r: seq<Value>) {
    if groups == [] then []
    else if !IsGroup(groups[0]) || Count(HooksIn(groups[0])) == 0 then [groups[0]] + Removed(groups[1..])
    else
      var rest := Others(HooksIn(groups[0]));
      (if rest == [] then [] else [WithHooks(groups[0], rest)]) + Removed(groups[1..])
  }

  /** The inner loop of `installHooks`, over one group's hooks. */
  method KeepHooks(hooks: seq<Value>, entry: seq<Member>, seen: bool)
    returns (kept: seq<Value>, dropped: bool, seen': bool)
    ensures kept == Kept(hooks, entry, seen)
    ensures dropped == Drops(hooks, seen)
    ensures seen' == (seen || Count(hooks) > 0)
  {
    hide Ours, Merge, Kept, Count;
    kept, dropped, seen' := [], false, seen;
    var i := 0;
    assert hooks[0..] == hooks;
    while i < |hooks|
      invariant 0 <= i <= |hooks|
      invariant kept + Kept(hooks[i..], entry, seen') == Kept(hooks, entry, seen)
      invariant (dropped || Drops(hooks[i..], seen')) == Drops(hooks, seen)
      invariant (seen' || Count(hooks[i..]) > 0) == (seen || Count(hooks) > 0)
    {
      var x := hooks[i];
      KeptFrom(hooks, i, entry, seen');
      if !Ours(x) {
        kept := kept + [x];
      } else if seen' {
        dropped := true;
      } else {
        seen' := true;
        kept := kept + [Merge(x, entry)];
      }
      i := i + 1;
    }
    NothingKept(hooks[i..], entry, seen');
  }

  lemma KeptFrom(hooks: seq<Value>, i: nat, entry: seq<Member>, seen: bool)
    requires i < |hooks|
    ensures var x, rest := hooks[i], hooks[i + 1..];
            && Kept(hooks[i..], entry, seen) ==
               (if !Ours(x) then [x] + Kept(rest, entry, seen)
                else if seen then Kept(rest, entry, true)
                else [Merge(x, entry)] + Kept(rest, entry, true))
            && Count(hooks[i..]) == (if Ours(x) then 1 else 0) + Count(rest)
  {
    hide Ours, Merge;
    assert hooks[i..][1..] == hooks[i + 1..];
  }

  lemma NothingKept(hooks: seq<Value>, entry: seq<Member>, seen: bool)
    requires hooks == []
    ensures Kept(hooks, entry, seen) == [] && Count(hooks) == 0
  {
  }

  /** What an install will make of `r` when the loop has come to `i`. */
  function Becomes(r: seq<Value>, i: nat, entry: seq<Member>, seen: bool): (v: seq<Value>)
    requires i <= |r|
  {
    r[..i] + Updated(r[i..], entry, seen)
  }

  lemma Spliced(r: seq<Value>, i: nat, entry: seq<Member>, seen: bool)
    requires i < |r| && IsGroup(r[i]) && Drops(HooksIn(r[i]), seen) && Kept(HooksIn(r[i]), entry, seen) == []
    ensures Becomes(r[..i] + r[i + 1..], i, entry, seen || Count(HooksIn(r[i])) > 0) == Becomes(r, i, entry, seen)
  {
    hide Ours, WithHooks;
    var r' := r[..i] + r[i + 1..];
    assert r[i..][1..] == r[i + 1..] == r'[i..] && r'[..i] == r[..i];
  }

  lemma Replaced(r: seq<Value>, i: nat, entry: seq<Member>, seen: bool)
    requires i < |r| && IsGroup(r[i]) && !(Drops(HooksIn(r[i]), seen) && Kept(HooksIn(r[i]), entry, seen) == [])
    ensures Becomes(r[i := WithHooks(r[i], Kept(HooksIn(r[i]), entry, seen))], i + 1, entry,
                    seen || Count(HooksIn(r[i])) > 0)
            == Becomes(r, i, entry, seen)
  {
    hide Ours, WithHooks, Kept;
    var g := WithHooks(r[i], Kept(HooksIn(r[i]), entry, seen));
    var r' := r[i := g];
    assert r[i..][1..] == r[i + 1..] == r'[i + 1..] && r'[..i + 1] == r[..i] + [g];
  }

  lemma PassedOver(r: seq<Value>, i: nat, entry: seq<Member>, seen: bool)
    requires i < |r| && !IsGroup(r[i])
    ensures Becomes(r, i + 1, entry, seen) == Becomes(r, i, entry, seen)
  {
    assert r[i..][1..] == r[i + 1..] && r[..i + 1] == r[..i] + [r[i]];
  }

  lemma AllBecome(r: seq<Value>, entry: seq<Member>, seen: bool)
    ensures Becomes(r, 0, entry, seen) == Updated(r, entry, seen)
    ensures Becomes(r, |r|, entry, seen) == r
    ensures Total(r[|r|..]) == 0
  {
    assert r[0..] == r;
  }

  /** The outer loop, with groups spliced out as it goes. */
  method InstallGroups(groups: seq<Value>, entry: seq<Member>) returns (r: seq<Value>)
    ensures r == Installed(groups, entry)
  {
    hide Becomes, Updated, Kept, Drops, Total, Ours, WithHooks, Count;
    r := groups;
    var seen := false;
    var i := 0;
    AllBecome(r, entry, seen);
    assert r[0..] == r;
    while i < |r|
      invariant 0 <= i <= |r|
      invariant Becomes(r, i, entry, seen) == Updated(groups, entry, false)
      invariant (seen || Total(r[i..]) > 0) == (Total(groups) > 0)
      decreases |r| - i
    {
      var g := r[i];
      TotalFrom(r, i);
      if IsGroup(g) {
        var kept, dropped, seen' := KeepHooks(HooksIn(g), entry, seen);
        if dropped && kept == [] {
          Spliced(r, i, entry, seen);
          assert (r[..i] + r[i + 1..])[i..] == r[i + 1..];
          r := r[..i] + r[i + 1..];
        } else {
          Replaced(r, i, entry, seen);
          assert r[i := WithHooks(g, kept)][i + 1..] == r[i + 1..];
          r := r[i := WithHooks(g, kept)];
          i := i + 1;
        }
        seen := seen';
      } else {
        PassedOver(r, i, entry, seen);
        i := i + 1;
      }
    }
    AllBecome(r, entry, seen);
    if !seen {
      r := r + [Obj([Member("hooks", Arr([Obj(entry)]))])];
    }
  }

  lemma TotalFrom(groups: seq<Value>, i: nat)
    requires i < |groups|
    ensures Total(groups[i..]) == (if IsGroup(groups[i]) then Count(HooksIn(groups[i])) else 0) + Total(groups[i + 1..])
  {
    assert groups[i..][1..] == groups[i + 1..];
  }

  method FilterOthers(hooks: seq<Value>) returns (rest: seq<Value>)
    ensures rest == Others(hooks) && |rest| + Count(hooks) == |hooks|
  {
    hide Ours;
    rest := [];
    var i := 0;
    while i < |hooks|
      invariant 0 <= i <= |hooks|
      invariant rest + Others(hooks[i..]) == Others(hooks)
      invariant |rest| + Count(hooks) == i + Count(hooks[i..])
    {
      assert hooks[i..][1..] == hooks[i + 1..];
      if !Ours(hooks[i]) {
        rest := rest + [hooks[i]];
      }
      i := i + 1;
    }
  }

  lemma RemovedFrom(groups: seq<Value>, i: nat)
    requires i < |groups|
    ensures var g := groups[i];
            Removed(groups[i..]) ==
            (if !IsGroup(g) || Count(HooksIn(g)) == 0 then [g]
             else if Others(HooksIn(g)) == [] then [] else [WithHooks(g, Others(HooksIn(g)))])
            + Removed(groups[i + 1..])
  {
    assert groups[i..][1..] == groups[i + 1..];
  }

  /** The loop of `uninstallHooks`, from the last group to the first. */
  method RemoveGroups(groups: seq<Value>) returns (r: seq<Value>, touched: bool)
    ensures r == Removed(groups) && touched == (Total(groups) > 0)
  {
    hide Ours, WithHooks, Removed, Total, Others, Count;
    r, touched := groups, false;
    var i := |groups|;
    NothingLeft(groups[i..]);
    while i > 0
      invariant 0 <= i <= |groups|
      invariant r == groups[..i] + Removed(groups[i..])
      invariant touched == (Total(groups[i..]) > 0)
    {
      i := i - 1;
      var g := r[i];
      TotalFrom(groups, i);
      RemovedFrom(groups, i);
      assert r[..i] == groups[..i] && r[i + 1..] == Removed(groups[i + 1..]);
      if IsGroup(g) {
        var rest := FilterOthers(HooksIn(g));
        if |rest| != |HooksIn(g)| {
          touched := true;
          r := r[i := WithHooks(g, rest)];
          if |rest| == 0 {
            r := r[..i] + r[i + 1..];
          }
        }
      }
    }
    assert groups[0..] == groups;
  }

  lemma NothingLeft(groups: seq<Value>)
    requires groups == []
    ensures Removed(groups) == [] && Total(groups) == 0
  {
  }
}

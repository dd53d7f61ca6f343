/** What installing and removing the hooks promise, first for the groups of one event, then for a whole document. */
module HooksLaws {
  import opened Wrappers
  import opened Json
  import opened Hooks

  /** An entry that is found again: spread over anything of ours it is still ours, and a second time changes nothing. */
  ghost predicate Recognised(entry: seq<Member>) {
    && Ours(Obj(entry))
    && (forall x :: Ours(x) ==> Ours(Merge(x, entry)))
    && (forall x :: Merge(Merge(x, entry), entry) == Merge(x, entry))
    && Merge(Obj(entry), entry) == Obj(entry)
  }

  // ----- one group's hooks -----

  lemma {:induction false} KeptOthers(hooks: seq<Value>, entry: seq<Member>, seen: bool)
    requires Recognised(entry)
    ensures Others(Kept(hooks, entry, seen)) == Others(hooks)
    ensures Count(Kept(hooks, entry, seen)) == if seen || Count(hooks) == 0 then 0 else 1
  {
    hide Ours, Merge;
    if hooks != [] {
      KeptOthers(hooks[1..], entry, seen);
      KeptOthers(hooks[1..], entry, true);
    }
  }

  /** Every entry of ours is up to date. */
  predicate Fresh(hooks: seq<Value>, entry: seq<Member>) {
    forall i :: 0 <= i < |hooks| ==> Ours(hooks[i]) ==> Merge(hooks[i], entry) == hooks[i]
  }

  lemma {:induction false} KeptFresh(hooks: seq<Value>, entry: seq<Member>, seen: bool)
    requires Recognised(entry)
    ensures Fresh(Kept(hooks, entry, seen), entry)
  {
    hide Ours, Merge;
    if hooks != [] {
      KeptFresh(hooks[1..], entry, seen);
      KeptFresh(hooks[1..], entry, true);
    }
  }

  lemma {:induction false} FreshStays(hooks: seq<Value>, entry: seq<Member>, seen: bool)
    requires Fresh(hooks, entry) && Count(hooks) <= if seen then 0 else 1
    ensures Kept(hooks, entry, seen) == hooks
  {
    hide Ours, Merge;
    if hooks != [] {
      var rest := hooks[1..];
      assert Fresh(rest, entry);
      if Ours(hooks[0]) {
        FreshStays(rest, entry, true);
      } else {
        FreshStays(rest, entry, seen);
      }
    }
  }

  lemma {:induction false} NoneOfOurs(hooks: seq<Value>)
    requires Count(hooks) == 0
    ensures Others(hooks) == hooks
  {
    hide Ours;
    if hooks != [] {
      NoneOfOurs(hooks[1..]);
    }
  }

  lemma {:induction false} OthersHaveNone(hooks: seq<Value>)
    ensures Count(Others(hooks)) == 0
  {
    hide Ours;
    if hooks != [] {
      OthersHaveNone(hooks[1..]);
      if !Ours(hooks[0]) {
        assert Others(hooks)[1..] == Others(hooks[1..]);
      } else {
        assert Others(hooks) == Others(hooks[1..]);
      }
    }
  }

  // ----- groups -----

  lemma GroupHooks(g: Value, hooks: seq<Value>)
    requires g.Obj?
    ensures IsGroup(WithHooks(g, hooks)) && HooksIn(WithHooks(g, hooks)) == hooks
  {
    GetPut(g.members, "hooks", Arr(hooks), "hooks");
  }

  lemma GroupTwice(g: Value, hooks: seq<Value>, again: seq<Value>)
    requires g.Obj?
    ensures WithHooks(WithHooks(g, hooks), again) == WithHooks(g, again)
    ensures IsGroup(g) && HooksIn(g) == again ==> WithHooks(g, again) == g
  {
    PutPut(g.members, "hooks", Arr(hooks), Arr(again));
    if IsGroup(g) && HooksIn(g) == again {
      PutSame(g.members, "hooks", Arr(again));
    }
  }

  lemma {:induction false} RemovedAppend(a: seq<Value>, b: seq<Value>)
    ensures Removed(a + b) == Removed(a) + Removed(b)
    ensures Total(a + b) == Total(a) + Total(b)
  {
    hide Ours, WithHooks, Others, Count;
    if a == [] {
      assert a + b == b;
    } else {
      assert (a + b)[1..] == a[1..] + b;
      RemovedAppend(a[1..], b);
    }
  }

  /** One group: removing our entries after an install leaves what removing them before it would. */
  lemma GroupUpdated(g: Value, entry: seq<Member>, seen: bool)
    requires Recognised(entry)
    ensures Removed(Updated([g], entry, seen)) == Removed([g])
    ensures Total(Updated([g], entry, seen)) == if seen || Total([g]) == 0 then 0 else 1
  {
    hide Ours, Merge, WithHooks, Kept, Others, Count;
    if IsGroup(g) {
      var hooks := HooksIn(g);
      var kept := Kept(hooks, entry, seen);
      KeptOthers(hooks, entry, seen);
      GroupHooks(g, kept);
      GroupTwice(g, kept, Others(hooks));
      GroupTwice(g, kept, hooks);
      SomeOrNone(kept);
      SomeOrNone(hooks);
      var now := WithHooks(g, kept);
      assert Updated([g], entry, seen) == if Drops(hooks, seen) && kept == [] then [] else [now];
      assert Removed([now]) ==
             if Count(kept) == 0 then [now] else if Others(kept) == [] then [] else [WithHooks(now, Others(kept))];
      assert Removed([g]) ==
             if Count(hooks) == 0 then [g] else if Others(hooks) == [] then [] else [WithHooks(g, Others(hooks))];
    }
  }

  lemma SomeOrNone(hooks: seq<Value>)
    ensures hooks == [] ==> Count(hooks) == 0
    ensures Count(hooks) == 0 ==> Others(hooks) == hooks
    ensures Count(hooks) + |Others(hooks)| == |hooks|
  {
    hide Ours;
    if hooks != [] {
      SomeOrNone(hooks[1..]);
    }
  }

  lemma {:induction false} UpdatedRemoved(groups: seq<Value>, entry: seq<Member>, seen: bool)
    requires Recognised(entry)
    ensures Removed(Updated(groups, entry, seen)) == Removed(groups)
    ensures Total(Updated(groups, entry, seen)) == if seen || Total(groups) == 0 then 0 else 1
  {
    hide Ours, Merge, WithHooks, Kept, Others, Count, Removed, Recognised;
    if groups == [] {
      RemovedAppend(groups, groups);
    } else {
      var g, rest := groups[0], groups[1..];
      var seen' := seen || (IsGroup(g) && Count(HooksIn(g)) > 0);
      assert [g][1..] == [];
      assert groups == [g] + rest;
      assert Updated(groups, entry, seen) == Updated([g], entry, seen) + Updated(rest, entry, seen');
      GroupUpdated(g, entry, seen);
      UpdatedRemoved(rest, entry, seen');
      RemovedAppend(Updated([g], entry, seen), Updated(rest, entry, seen'));
      RemovedAppend([g], rest);
      assert Total([g]) > 0 <==> IsGroup(g) && Count(HooksIn(g)) > 0;
    }
  }

  lemma NewGroup(entry: seq<Member>)
    requires Recognised(entry)
    ensures var g := Obj([Member("hooks", Arr([Obj(entry)]))]);
            IsGroup(g) && HooksIn(g) == [Obj(entry)] && Total([g]) == 1 && Removed([g]) == []
  {
    hide Ours, Merge;
    assert [Obj(entry)][1..] == [];
    assert Count([Obj(entry)]) == 1 && Others([Obj(entry)]) == [];
  }

  /** After an install the event has exactly one entry of ours, and everything else is as it was and where it was. */
  lemma InstalledOnce(groups: seq<Value>, entry: seq<Member>)
    requires Recognised(entry)
    ensures Total(Installed(groups, entry)) == 1
    ensures Removed(Installed(groups, entry)) == Removed(groups)
  {
    hide Ours, Merge, WithHooks, Kept, Others, Count, Removed, Total, Updated, Recognised;
    UpdatedRemoved(groups, entry, false);
    if Total(groups) == 0 {
      NewGroup(entry);
      RemovedAppend(Updated(groups, entry, false), [Obj([Member("hooks", Arr([Obj(entry)]))])]);
    } else {
      assert Installed(groups, entry) == Updated(groups, entry, false);
    }
  }

  predicate AllFresh(groups: seq<Value>, entry: seq<Member>) {
    forall i :: 0 <= i < |groups| ==> IsGroup(groups[i]) ==> Fresh(HooksIn(groups[i]), entry)
  }

  lemma {:induction false} UpdatedFresh(groups: seq<Value>, entry: seq<Member>, seen: bool)
    requires Recognised(entry)
    ensures AllFresh(Updated(groups, entry, seen), entry)
  {
    hide Ours, Merge, WithHooks, Kept, Others, Count, Fresh, Recognised;
    if groups != [] {
      var g := groups[0];
      UpdatedFresh(groups[1..], entry, seen);
      if IsGroup(g) {
        UpdatedFresh(groups[1..], entry, seen || Count(HooksIn(g)) > 0);
        KeptFresh(HooksIn(g), entry, seen);
        GroupHooks(g, Kept(HooksIn(g), entry, seen));
      }
    }
  }

  lemma {:induction false} UpdatedStays(groups: seq<Value>, entry: seq<Member>, seen: bool)
    requires AllFresh(groups, entry) && Total(groups) <= if seen then 0 else 1
    ensures Updated(groups, entry, seen) == groups
  {
    hide Ours, Merge, WithHooks, Kept, Others, Count, Fresh;
    if groups != [] {
      var g, rest := groups[0], groups[1..];
      assert AllFresh(rest, entry);
      if IsGroup(g) {
        FreshStays(HooksIn(g), entry, seen);
        GroupTwice(g, HooksIn(g), HooksIn(g));
        UpdatedStays(rest, entry, seen || Count(HooksIn(g)) > 0);
      } else {
        UpdatedStays(rest, entry, seen);
      }
    }
  }

  /** A second install changes nothing. */
  lemma InstalledTwice(groups: seq<Value>, entry: seq<Member>)
    requires Recognised(entry)
    ensures Installed(Installed(groups, entry), entry) == Installed(groups, entry)
  {
    hide Ours, Merge, WithHooks, Kept, Others, Count, Total, Updated, Removed, Fresh;
    InstalledOnce(groups, entry);
    UpdatedFresh(groups, entry, false);
    NewGroup(entry);
    assert Fresh([Obj(entry)], entry) by {
      OneFresh(entry);
    }
    UpdatedStays(Installed(groups, entry), entry, false);
  }

  lemma OneFresh(entry: seq<Member>)
    requires Recognised(entry)
    ensures Fresh([Obj(entry)], entry)
  {
    hide Ours, Merge;
  }

  /** Removing leaves none of ours. */
  lemma {:induction false} RemovedClean(groups: seq<Value>)
    ensures Total(Removed(groups)) == 0
    ensures Total(groups) == 0 ==> Removed(groups) == groups
  {
    hide Ours, WithHooks, Others, Count;
    if groups != [] {
      var g := groups[0];
      RemovedClean(groups[1..]);
      RemovedAppend(Removed([g]), Removed(groups[1..]));
      if IsGroup(g) {
        OthersHaveNone(HooksIn(g));
        GroupHooks(g, Others(HooksIn(g)));
      }
      assert [g][1..] == [] && groups == [g] + groups[1..];
      RemovedAppend([g], groups[1..]);
    }
  }

  /** All entries that are not ours, in order. */
  function AllOthers(groups: seq<Value>): (r: seq<Value>) {
    if groups == [] then []
    else (if IsGroup(groups[0]) then Others(HooksIn(groups[0])) else []) + AllOthers(groups[1..])
  }

  lemma {:induction false} RemovedKeepsOthers(groups: seq<Value>)
    ensures AllOthers(Removed(groups)) == AllOthers(groups)
  {
    hide Ours, WithHooks, Others, Count;
    if groups != [] {
      var g, rest := groups[0], groups[1..];
      RemovedKeepsOthers(rest);
      if IsGroup(g) && Count(HooksIn(g)) > 0 {
        var others := Others(HooksIn(g));
        GroupHooks(g, others);
        OthersHaveNone(HooksIn(g));
        NoneOfOurs(others);
        if others != [] {
          assert Removed(groups)[1..] == Removed(rest);
        } else {
          assert Removed(groups) == Removed(rest);
        }
      } else {
        assert Removed(groups)[1..] == Removed(rest);
      }
    }
  }

  /** Install keeps every other entry, in order. */
  lemma InstalledKeepsOthers(groups: seq<Value>, entry: seq<Member>)
    requires Recognised(entry)
    ensures AllOthers(Installed(groups, entry)) == AllOthers(groups)
  {
    InstalledOnce(groups, entry);
    RemovedKeepsOthers(groups);
    RemovedKeepsOthers(Installed(groups, entry));
  }
}

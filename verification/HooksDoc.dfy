/** `installHooks` and `uninstallHooks` (connector/src/hooks.ts) on a whole settings document. */
module HooksDoc {
  import opened Wrappers
  import opened Json
  import opened Hooks
  import opened HooksLaws
  import opened HookCommand

  /** An event to hook and the entry it gets. */
  datatype Hook = Hook(event: string, entry: seq<Member>)

  /** The two hooked events. */
  function Plan(node: string, script: string, dir: string): (plan: seq<Hook>) {
    [Hook("SessionStart", Entry(Command(node, script, "start", dir), 2)),
     Hook("SessionEnd", Entry(Command(node, script, "end", dir), 1))]
  }

  predicate DistinctEvents(plan: seq<Hook>) {
    forall i, j :: 0 <= i < j < |plan| ==> plan[i].event != plan[j].event
  }

  ghost predicate Sound(plan: seq<Hook>) {
    DistinctEvents(plan) && forall i :: 0 <= i < |plan| ==> Recognised(plan[i].entry)
  }

  lemma PlanIsSound(node: string, script: string, dir: string)
    requires HookScript(script)
    ensures Sound(Plan(node, script, dir))
  {
    hide Recognised;
    EntryIsRecognised(node, script, "start", dir, 2);
    EntryIsRecognised(node, script, "end", dir, 1);
  }

  // ----- what they do -----

  /** An event's groups: none when it is absent, refused (None) when it is not a list. */
  function GroupsAt(hooks: seq<Member>, event: string): (r: Option<seq<Value>>) {
    match Get(hooks, event)
    case None => Some([])
    case Some(v) => if v.Arr? then Some(v.items) else None
  }

  function InstallAll(hooks: seq<Member>, plan: seq<Hook>): (r: Option<seq<Member>>)
    decreases |plan|
  {
    if plan == [] then Some(hooks)
    else
      var groups := GroupsAt(hooks, plan[0].event);
      if groups.None? then None
      else InstallAll(Put(hooks, plan[0].event, Arr(Installed(groups.value, plan[0].entry))), plan[1..])
  }

  /** The document after an install; None when it is refused and left as it was. */
  function Install(doc: seq<Member>, plan: seq<Hook>): (r: Option<seq<Member>>) {
    match Get(doc, "hooks")
    case None =>
      var r := InstallAll([], plan);
      if r.None? then None else Some(Put(doc, "hooks", Obj(r.value)))
    case Some(v) =>
      if !v.Obj? then None
      else
        var r := InstallAll(v.members, plan);
        if r.None? then None else Some(Put(doc, "hooks", Obj(r.value)))
  }

  datatype Removal = Removal(hooks: seq<Member>, touched: bool)

  function RemoveOne(hooks: seq<Member>, event: string): (r: Removal) {
    match GroupsAt(hooks, event)
    case None => Removal(hooks, false)
    case Some(groups) =>
      if Total(groups) == 0 then Removal(hooks, false)
      else if Removed(groups) == [] then Removal(Del(hooks, event), true)
      else Removal(Put(hooks, event, Arr(Removed(groups))), true)
  }

  function RemoveAll(hooks: seq<Member>, plan: seq<Hook>): (r: Option<Removal>)
    decreases |plan|
  {
    if plan == [] then Some(Removal(hooks, false))
    else if GroupsAt(hooks, plan[0].event).None? then None
    else
      var one := RemoveOne(hooks, plan[0].event);
      var rest := RemoveAll(one.hooks, plan[1..]);
      if rest.None? then None else Some(Removal(rest.value.hooks, one.touched || rest.value.touched))
  }

  function Uninstall(doc: seq<Member>, plan: seq<Hook>): (r: Option<seq<Member>>) {
    match Get(doc, "hooks")
    case None => Some(doc)
    case Some(v) =>
      if !v.Obj? then None
      else
        var r := RemoveAll(v.members, plan);
        if r.None? then None
        else if !r.value.touched then Some(doc)
        else if r.value.hooks == [] then Some(Del(doc, "hooks"))
        else Some(Put(doc, "hooks", Obj(r.value.hooks)))
  }

  /** `installHooks`; `changed` is whether the file is written (a missing one always is). */
  method InstallHooks(doc: seq<Member>, missing: bool, plan: seq<Hook>) returns (r: Option<seq<Member>>, changed: bool)
    ensures r == Install(doc, plan)
    ensures changed == (r.Some? && (r.value != doc || missing))
  {
    hide Installed, Get, Put;
    var hooks: seq<Member> := [];
    var found := Get(doc, "hooks");
    if found.Some? {
      if !found.value.Obj? {
        return None, false;
      }
      hooks := found.value.members;
    }
    ghost var was := hooks;
    var i := 0;
    assert plan[0..] == plan;
    while i < |plan|
      invariant 0 <= i <= |plan|
      invariant InstallAll(hooks, plan[i..]) == InstallAll(was, plan)
    {
      var h := plan[i];
      var groups := GroupsAt(hooks, h.event);
      assert plan[i..][1..] == plan[i + 1..];
      if groups.None? {
        return None, false;
      }
      var installed := InstallGroups(groups.value, h.entry);
      hooks := Put(hooks, h.event, Arr(installed));
      i := i + 1;
    }
    r := Some(Put(doc, "hooks", Obj(hooks)));
    changed := r.value != doc || missing;
  }

  /** The event has groups, and an entry of ours is in one of them. */
  predicate HoldsOurs(hooks: seq<Member>, event: string) {
    GroupsAt(hooks, event).Some? && Total(GroupsAt(hooks, event).value) > 0
  }

  /** Somewhere in the planned events of the document is an entry of ours. */
  predicate OursInstalled(doc: seq<Member>, plan: seq<Hook>) {
    var v := Get(doc, "hooks");
    v.Some? && v.value.Obj? && exists i :: 0 <= i < |plan| && HoldsOurs(v.value.members, plan[i].event)
  }

  /** Removing touches something exactly when there is something of ours to remove. */
  lemma {:induction false} TouchedExactlyWhenOurs(hooks: seq<Member>, plan: seq<Hook>)
    requires RemoveAll(hooks, plan).Some?
    ensures RemoveAll(hooks, plan).value.touched <==> exists i :: 0 <= i < |plan| && HoldsOurs(hooks, plan[i].event)
    decreases |plan|
  {
    hide Removed, Total, Get, Put, Del;
    if plan != [] {
      if HoldsOurs(hooks, plan[0].event) {
        assert RemoveOne(hooks, plan[0].event).touched;
      } else {
        assert RemoveOne(hooks, plan[0].event) == Removal(hooks, false);
        TouchedExactlyWhenOurs(hooks, plan[1..]);
        assert forall i :: 0 < i < |plan| ==> plan[i] == plan[1..][i - 1];
      }
    }
  }

  /** `uninstallHooks`; `changed` is whether the file is written. */
  method UninstallHooks(doc: seq<Member>, plan: seq<Hook>) returns (r: Option<seq<Member>>, changed: bool)
    ensures r == Uninstall(doc, plan)
    ensures changed <==> r.Some? && OursInstalled(doc, plan)
    ensures !changed && r.Some? ==> r == Some(doc)
  {
    hide Removed, Total, Get, Put, Del, HoldsOurs;
    var found := Get(doc, "hooks");
    if found.None? {
      return Some(doc), false;
    }
    if !found.value.Obj? {
      return None, false;
    }
    var hooks, touchedAny := found.value.members, false;
    ghost var was := hooks;
    var i := 0;
    assert plan[0..] == plan;
    while i < |plan|
      invariant 0 <= i <= |plan|
      invariant var whole, rest := RemoveAll(was, plan), RemoveAll(hooks, plan[i..]);
                if rest.None? then whole.None?
                else whole == Some(Removal(rest.value.hooks, touchedAny || rest.value.touched))
    {
      var event := plan[i].event;
      var groups := GroupsAt(hooks, event);
      assert plan[i..][1..] == plan[i + 1..];
      if groups.None? {
        return None, false;
      }
      var left, touched := RemoveGroups(groups.value);
      if touched && left == [] {
        hooks := Del(hooks, event);
      } else if touched {
        hooks := Put(hooks, event, Arr(left));
      }
      touchedAny := touchedAny || touched;
      i := i + 1;
    }
    TouchedExactlyWhenOurs(was, plan);
    if !touchedAny {
      return Some(doc), false;
    }
    r := if hooks == [] then Some(Del(doc, "hooks")) else Some(Put(doc, "hooks", Obj(hooks)));
    changed := true;
  }

  // ----- installing -----

  /** The hook of the plan for that event, if any. */
  function PlanFor(plan: seq<Hook>, event: string): (r: Option<Hook>) {
    if plan == [] then None else if plan[0].event == event then Some(plan[0]) else PlanFor(plan[1..], event)
  }

  /** Install changes exactly the planned events, each by itself. */
  lemma {:induction false} InstallAllGet(hooks: seq<Member>, plan: seq<Hook>, key: string)
    requires DistinctEvents(plan) && InstallAll(hooks, plan).Some?
    ensures var r := InstallAll(hooks, plan).value;
            Get(r, key) == match PlanFor(plan, key)
                           case None => Get(hooks, key)
                           case Some(h) =>
                             if GroupsAt(hooks, key).None? then None
                             else Some(Arr(Installed(GroupsAt(hooks, key).value, h.entry)))
    ensures PlanFor(plan, key).Some? ==> GroupsAt(hooks, key).Some?
    decreases |plan|
  {
    hide Installed, Get, Put;
    if plan != [] {
      var h, rest := plan[0], plan[1..];
      var v := Arr(Installed(GroupsAt(hooks, h.event).value, h.entry));
      InstallAllGet(Put(hooks, h.event, v), rest, key);
      GetPut(hooks, h.event, v, key);
      if key == h.event {
        NotPlanned(rest, key);
      }
    }
  }

  lemma {:induction false} NotPlanned(plan: seq<Hook>, event: string)
    requires forall i :: 0 <= i < |plan| ==> plan[i].event != event
    ensures PlanFor(plan, event).None?
  {
    if plan != [] {
      NotPlanned(plan[1..], event);
    }
  }

  lemma {:induction false} Planned(plan: seq<Hook>, i: nat)
    requires DistinctEvents(plan) && i < |plan|
    ensures PlanFor(plan, plan[i].event) == Some(plan[i])
  {
    if i > 0 {
      Planned(plan[1..], i - 1);
    }
  }

  /**
   After an install each hooked event has exactly one entry of ours and all others, in order; every other event
   and every other setting is what it was.
   */
  lemma InstallAddsOneEach(doc: seq<Member>, plan: seq<Hook>, i: nat, key: string)
    requires Sound(plan) && i < |plan| && Install(doc, plan).Some?
    ensures var before := match Get(doc, "hooks") case None => [] case Some(v) => if v.Obj? then v.members else [];
            var r := Install(doc, plan).value;
            && (key != "hooks" ==> Get(r, key) == Get(doc, key))
            && Get(r, "hooks").Some? && Get(r, "hooks").value.Obj?
            && var after := Get(r, "hooks").value.members;
            && GroupsAt(before, plan[i].event).Some? && GroupsAt(after, plan[i].event).Some?
            && Total(GroupsAt(after, plan[i].event).value) == 1
            && AllOthers(GroupsAt(after, plan[i].event).value) == AllOthers(GroupsAt(before, plan[i].event).value)
            && (PlanFor(plan, key).None? ==> Get(after, key) == Get(before, key))
  {
    hide Installed, Get, Put, Recognised, AllOthers, Total, InstallAll;
    var before := match Get(doc, "hooks") case None => [] case Some(v) => if v.Obj? then v.members else [];
    var after := InstallAll(before, plan).value;
    GetPut(doc, "hooks", Obj(after), key);
    GetPut(doc, "hooks", Obj(after), "hooks");
    var h := plan[i];
    Planned(plan, i);
    InstallAllGet(before, plan, h.event);
    InstallAllGet(before, plan, key);
    InstalledOnce(GroupsAt(before, h.event).value, h.entry);
    InstalledKeepsOthers(GroupsAt(before, h.event).value, h.entry);
  }

  // ----- installing twice -----

  /** Every planned event is as an install leaves it. */
  ghost predicate Settled(hooks: seq<Member>, plan: seq<Hook>) {
    forall i :: 0 <= i < |plan| ==>
      GroupsAt(hooks, plan[i].event).Some? && Get(hooks, plan[i].event).Some?
      && Installed(GroupsAt(hooks, plan[i].event).value, plan[i].entry) == GroupsAt(hooks, plan[i].event).value
  }

  lemma {:induction false} SettledStays(hooks: seq<Member>, plan: seq<Hook>)
    requires Settled(hooks, plan)
    ensures InstallAll(hooks, plan) == Some(hooks)
    decreases |plan|
  {
    hide Installed, Get, Put;
    if plan != [] {
      PutSame(hooks, plan[0].event, Arr(GroupsAt(hooks, plan[0].event).value));
      assert Settled(hooks, plan[1..]);
      SettledStays(hooks, plan[1..]);
    }
  }

  lemma InstalledIsSettled(hooks: seq<Member>, plan: seq<Hook>)
    requires Sound(plan) && InstallAll(hooks, plan).Some?
    ensures Settled(InstallAll(hooks, plan).value, plan)
  {
    hide Installed, Get, Put, Recognised, InstallAll;
    var r := InstallAll(hooks, plan).value;
    forall i | 0 <= i < |plan|
      ensures GroupsAt(r, plan[i].event).Some? && Get(r, plan[i].event).Some?
              && Installed(GroupsAt(r, plan[i].event).value, plan[i].entry) == GroupsAt(r, plan[i].event).value
    {
      Planned(plan, i);
      InstallAllGet(hooks, plan, plan[i].event);
      InstalledTwice(GroupsAt(hooks, plan[i].event).value, plan[i].entry);
    }
  }

  /** A second install changes nothing. */
  lemma InstallTwice(doc: seq<Member>, plan: seq<Hook>)
    requires Sound(plan) && Install(doc, plan).Some?
    ensures Install(Install(doc, plan).value, plan) == Install(doc, plan)
  {
    hide Installed, Get, Put, Recognised, InstallAll, Settled;
    var before := match Get(doc, "hooks") case None => [] case Some(v) => v.members;
    var after := InstallAll(before, plan).value;
    var r := Install(doc, plan).value;
    GetPut(doc, "hooks", Obj(after), "hooks");
    InstalledIsSettled(before, plan);
    SettledStays(after, plan);
    PutSame(r, "hooks", Obj(after));
  }

  // ----- removing what was installed -----

  predicate NotIn(plan: seq<Hook>, event: string) {
    forall i :: 0 <= i < |plan| ==> plan[i].event != event
  }

  lemma {:induction false} DelInstallAll(hooks: seq<Member>, event: string, plan: seq<Hook>)
    requires NotIn(plan, event) && InstallAll(hooks, plan).Some?
    ensures InstallAll(Del(hooks, event), plan) == Some(Del(InstallAll(hooks, plan).value, event))
    decreases |plan|
  {
    hide Installed, Get, Put, Del;
    if plan != [] {
      var h := plan[0];
      GetDel(hooks, event, h.event);
      var v := Arr(Installed(GroupsAt(hooks, h.event).value, h.entry));
      DelPutOther(hooks, event, h.event, v);
      DelInstallAll(Put(hooks, h.event, v), event, plan[1..]);
    }
  }

  lemma {:induction false} PutInstallAll(hooks: seq<Member>, event: string, value: Value, plan: seq<Hook>)
    requires NotIn(plan, event) && InstallAll(hooks, plan).Some? && Get(hooks, event).Some?
    ensures InstallAll(Put(hooks, event, value), plan) == Some(Put(InstallAll(hooks, plan).value, event, value))
    decreases |plan|
  {
    hide Installed, Get, Put;
    if plan != [] {
      var h := plan[0];
      GetPut(hooks, event, value, h.event);
      var v := Arr(Installed(GroupsAt(hooks, h.event).value, h.entry));
      PutOther(hooks, event, value, h.event, v);
      GetPut(hooks, h.event, v, event);
      PutInstallAll(Put(hooks, h.event, v), event, value, plan[1..]);
    }
  }

  /** The event has no entry of ours, and is not an empty list. */
  predicate TidyAt(hooks: seq<Member>, event: string) {
    GroupsAt(hooks, event).Some? && Total(GroupsAt(hooks, event).value) == 0 && Get(hooks, event) != Some(Arr([]))
  }

  predicate Tidy(hooks: seq<Member>, plan: seq<Hook>) {
    forall i :: 0 <= i < |plan| ==> TidyAt(hooks, plan[i].event)
  }

  /** Removing from one event what an install put there gives back what it was, whatever else was installed. */
  lemma RestoresOne(hooks: seq<Member>, h: Hook, rest: seq<Hook>)
    requires NotIn(rest, h.event) && DistinctEvents(rest) && Recognised(h.entry) && TidyAt(hooks, h.event)
    requires InstallAll(hooks, [h] + rest).Some? && InstallAll(hooks, rest).Some?
    ensures var r := InstallAll(hooks, [h] + rest).value;
            GroupsAt(r, h.event).Some? && RemoveOne(r, h.event) == Removal(InstallAll(hooks, rest).value, true)
  {
    hide Installed, Get, Put, Del, Total, Removed, Recognised;
    var groups := GroupsAt(hooks, h.event).value;
    var v := Arr(Installed(groups, h.entry));
    var hooks1 := Put(hooks, h.event, v);
    assert ([h] + rest)[1..] == rest;
    var r := InstallAll(hooks1, rest).value;
    NotPlanned(rest, h.event);
    InstallAllGet(hooks1, rest, h.event);
    GetPut(hooks, h.event, v, h.event);
    InstalledOnce(groups, h.entry);
    RemovedClean(groups);
    if groups == [] {
      DelInstallAll(hooks1, h.event, rest);
      DelPut(hooks, h.event, v);
    } else {
      PutInstallAll(hooks1, h.event, Arr(groups), rest);
      PutPut(hooks, h.event, v, Arr(groups));
      PutSame(hooks, h.event, Arr(groups));
    }
  }

  lemma {:induction false} InstallAllDefined(hooks: seq<Member>, plan: seq<Hook>)
    requires DistinctEvents(plan)
    ensures InstallAll(hooks, plan).Some? <==> forall i :: 0 <= i < |plan| ==> GroupsAt(hooks, plan[i].event).Some?
    decreases |plan|
  {
    hide Installed, Get, Put;
    if plan != [] && GroupsAt(hooks, plan[0].event).Some? {
      var h := plan[0];
      var v := Arr(Installed(GroupsAt(hooks, h.event).value, h.entry));
      var hooks1 := Put(hooks, h.event, v);
      InstallAllDefined(hooks1, plan[1..]);
      forall i | 0 < i < |plan| ensures GroupsAt(hooks1, plan[i].event) == GroupsAt(hooks, plan[i].event) {
        GetPut(hooks, h.event, v, plan[i].event);
      }
      assert forall i :: 0 < i < |plan| ==> plan[1..][i - 1] == plan[i];
    }
  }

  lemma {:induction false} RemoveAllRestores(hooks: seq<Member>, plan: seq<Hook>)
    requires Sound(plan) && Tidy(hooks, plan) && InstallAll(hooks, plan).Some?
    ensures RemoveAll(InstallAll(hooks, plan).value, plan) == Some(Removal(hooks, plan != []))
    decreases |plan|
  {
    hide Installed, Get, Put, Del, Total, Removed, Recognised, InstallAll, TidyAt, RemoveOne, GroupsAt;
    if plan == [] {
      NothingInstalled(hooks, plan);
    } else {
      var h, rest := plan[0], plan[1..];
      assert plan == [h] + rest;
      forall i | 0 <= i < |plan| ensures GroupsAt(hooks, plan[i].event).Some? {
        TidyIsList(hooks, plan[i].event);
      }
      InstallAllDefined(hooks, rest);
      RestoresOne(hooks, h, rest);
      assert Tidy(hooks, rest) && Sound(rest);
      RemoveAllRestores(hooks, rest);
    }
  }

  lemma NothingInstalled(hooks: seq<Member>, plan: seq<Hook>)
    requires plan == []
    ensures InstallAll(hooks, plan) == Some(hooks)
  {
  }

  lemma TidyIsList(hooks: seq<Member>, event: string)
    requires TidyAt(hooks, event)
    ensures GroupsAt(hooks, event).Some?
  {
  }

  /** The document has no entry of ours and no empty hook container. */
  predicate TidyDoc(doc: seq<Member>, plan: seq<Hook>) {
    match Get(doc, "hooks")
    case None => true
    case Some(v) => v.Obj? ==> v.members != [] && Tidy(v.members, plan)
  }

  lemma UninstallRestores(doc: seq<Member>, plan: seq<Hook>)
    requires Sound(plan) && plan != [] && Install(doc, plan).Some? && TidyDoc(doc, plan)
    ensures Uninstall(Install(doc, plan).value, plan) == Some(doc)
  {
    hide Get, Put, Del, Recognised, InstallAll, RemoveAll, TidyAt, GroupsAt;
    var before := match Get(doc, "hooks") case None => [] case Some(v) => v.members;
    var after := InstallAll(before, plan).value;
    GetPut(doc, "hooks", Obj(after), "hooks");
    assert Tidy(before, plan) by {
      forall i | 0 <= i < |plan| ensures Get(doc, "hooks").None? ==> TidyAt([], plan[i].event) {
        EmptyIsTidy(plan[i].event);
      }
    }
    RemoveAllRestores(before, plan);
    if Get(doc, "hooks").None? {
      DelPut(doc, "hooks", Obj(after));
    } else {
      PutPut(doc, "hooks", Obj(after), Obj(before));
      PutSame(doc, "hooks", Obj(before));
    }
  }

  lemma EmptyIsTidy(event: string)
    ensures TidyAt([], event)
  {
  }

  /** An install is refused exactly when `hooks` is not an object or a hooked event is not a list. */
  lemma InstallRefused(doc: seq<Member>, plan: seq<Hook>)
    requires DistinctEvents(plan)
    ensures Install(doc, plan).None? <==>
            Get(doc, "hooks").Some? && (!Get(doc, "hooks").value.Obj?
              || exists i :: 0 <= i < |plan| && GroupsAt(Get(doc, "hooks").value.members, plan[i].event).None?)
  {
    hide Get, Put, InstallAll;
    match Get(doc, "hooks")
    case None =>
      InstallAllDefined([], plan);
      forall i | 0 <= i < |plan| ensures GroupsAt([], plan[i].event).Some? {
        EmptyIsTidy(plan[i].event);
      }
    case Some(v) =>
      if v.Obj? {
        InstallAllDefined(v.members, plan);
      }
  }

  // ----- only tidy documents come back as they were -----

  lemma {:induction false} RemoveAllOther(hooks: seq<Member>, plan: seq<Hook>, key: string)
    requires NotIn(plan, key) && RemoveAll(hooks, plan).Some?
    ensures Get(RemoveAll(hooks, plan).value.hooks, key) == Get(hooks, key)
    decreases |plan|
  {
    hide Get, Put, Del, Total, Removed;
    if plan != [] {
      RemoveOneOther(hooks, plan[0].event, key);
      RemoveAllOther(RemoveOne(hooks, plan[0].event).hooks, plan[1..], key);
    }
  }

  lemma RemoveOneOther(hooks: seq<Member>, event: string, key: string)
    requires key != event
    ensures Get(RemoveOne(hooks, event).hooks, key) == Get(hooks, key)
  {
    hide Get, Put, Del, Total, Removed;
    GetDel(hooks, event, key);
    if GroupsAt(hooks, event).Some? {
      GetPut(hooks, event, Arr(Removed(GroupsAt(hooks, event).value)), key);
    }
  }

  lemma RemoveOneTidies(hooks: seq<Member>, event: string)
    requires Distinct(hooks) && GroupsAt(hooks, event).Some? && Total(GroupsAt(hooks, event).value) > 0
    ensures TidyAt(RemoveOne(hooks, event).hooks, event) && Distinct(RemoveOne(hooks, event).hooks)
  {
    hide Get, Put, Del, Removed, Distinct;
    var groups := GroupsAt(hooks, event).value;
    RemovedClean(groups);
    if Removed(groups) == [] {
      DelAbsent(hooks, event);
      DistinctDel(hooks, event);
    } else {
      GetPut(hooks, event, Arr(Removed(groups)), event);
      DistinctPut(hooks, event, Arr(Removed(groups)));
    }
  }

  predicate AllOurs(hooks: seq<Member>, plan: seq<Hook>) {
    forall i :: 0 <= i < |plan| ==>
      GroupsAt(hooks, plan[i].event).Some? && Total(GroupsAt(hooks, plan[i].event).value) > 0
  }

  lemma {:induction false} RemoveAllTidies(hooks: seq<Member>, plan: seq<Hook>)
    requires Distinct(hooks) && DistinctEvents(plan) && AllOurs(hooks, plan)
    ensures RemoveAll(hooks, plan).Some? && Tidy(RemoveAll(hooks, plan).value.hooks, plan)
    ensures plan != [] ==> RemoveAll(hooks, plan).value.touched
    decreases |plan|
  {
    hide Get, Put, Del, Removed, Distinct, Total;
    if plan != [] {
      var event, rest := plan[0].event, plan[1..];
      var one := RemoveOne(hooks, event);
      RemoveOneTidies(hooks, event);
      forall i | 0 <= i < |rest| ensures GroupsAt(one.hooks, rest[i].event) == GroupsAt(hooks, rest[i].event) {
        assert rest[i] == plan[i + 1];
        RemoveOneOther(hooks, event, rest[i].event);
      }
      assert forall i :: 0 <= i < |rest| ==> rest[i] == plan[i + 1];
      RemoveAllTidies(one.hooks, rest);
      var r := RemoveAll(one.hooks, rest).value.hooks;
      RemoveAllOther(one.hooks, rest, event);
      assert TidyAt(r, event);
      forall i | 0 <= i < |plan| ensures TidyAt(r, plan[i].event) {
        if i > 0 {
          assert TidyAt(r, rest[i - 1].event);
        }
      }
    }
  }

  lemma {:induction false} InstallAllDistinct(hooks: seq<Member>, plan: seq<Hook>)
    requires Distinct(hooks) && InstallAll(hooks, plan).Some?
    ensures Distinct(InstallAll(hooks, plan).value)
    decreases |plan|
  {
    hide Get, Put, Installed, Distinct;
    if plan != [] {
      var v := Arr(Installed(GroupsAt(hooks, plan[0].event).value, plan[0].entry));
      DistinctPut(hooks, plan[0].event, v);
      InstallAllDistinct(Put(hooks, plan[0].event, v), plan[1..]);
    }
  }

  lemma InstallAllOurs(hooks: seq<Member>, plan: seq<Hook>)
    requires Sound(plan) && InstallAll(hooks, plan).Some?
    ensures AllOurs(InstallAll(hooks, plan).value, plan)
  {
    hide Get, Installed, Total, InstallAll, Recognised;
    forall i | 0 <= i < |plan|
      ensures var g := GroupsAt(InstallAll(hooks, plan).value, plan[i].event); g.Some? && Total(g.value) > 0
    {
      Planned(plan, i);
      InstallAllGet(hooks, plan, plan[i].event);
      InstalledOnce(GroupsAt(hooks, plan[i].event).value, plan[i].entry);
    }
  }

  /** What an install and an uninstall leave is always tidy. */
  lemma UninstalledIsTidy(doc: seq<Member>, plan: seq<Hook>)
    requires Sound(plan) && plan != [] && Install(doc, plan).Some? && Distinct(doc)
    requires Get(doc, "hooks").Some? && Get(doc, "hooks").value.Obj? ==> Distinct(Get(doc, "hooks").value.members)
    ensures var r := Uninstall(Install(doc, plan).value, plan); r.Some? && TidyDoc(r.value, plan)
  {
    hide Get, Put, Del, Recognised, InstallAll, RemoveAll, TidyAt, GroupsAt, Distinct, AllOurs, Tidy, DistinctEvents;
    var before := match Get(doc, "hooks") case None => [] case Some(v) => v.members;
    var after := InstallAll(before, plan).value;
    var doc1 := Install(doc, plan).value;
    GetPut(doc, "hooks", Obj(after), "hooks");
    NothingTwice();
    InstallAllDistinct(before, plan);
    InstallAllOurs(before, plan);
    RemoveAllTidies(after, plan);
    var left := RemoveAll(after, plan).value.hooks;
    if left == [] {
      DistinctPut(doc, "hooks", Obj(after));
      DelAbsent(doc1, "hooks");
    } else {
      GetPut(doc1, "hooks", Obj(left), "hooks");
    }
  }

  lemma NothingTwice()
    ensures Distinct([])
  {
  }

  /**
   Uninstall undoes install exactly on the documents that had no entry of ours and no empty hook container
   (`hooks` an empty object, a hooked event an empty list).
   */
  lemma UndoneExactlyWhenTidy(doc: seq<Member>, plan: seq<Hook>)
    requires Sound(plan) && plan != [] && Install(doc, plan).Some? && Distinct(doc)
    requires Get(doc, "hooks").Some? && Get(doc, "hooks").value.Obj? ==> Distinct(Get(doc, "hooks").value.members)
    ensures Uninstall(Install(doc, plan).value, plan) == Some(doc) <==> TidyDoc(doc, plan)
  {
    hide Get, Put, Del, Recognised, InstallAll, RemoveAll, Tidy, Distinct, DistinctEvents, Uninstall;
    UninstalledIsTidy(doc, plan);
    if TidyDoc(doc, plan) {
      UninstallRestores(doc, plan);
    }
  }

  const EMPTY_HOOKS := [Member("hooks", Obj([]))]

  /** An empty `hooks` object is not there again after both. */
  lemma EmptyHooksAreNotRestored(node: string, script: string, dir: string)
    requires HookScript(script)
    ensures var plan := Plan(node, script, dir);
            && Install(EMPTY_HOOKS, plan).Some?
            && Uninstall(Install(EMPTY_HOOKS, plan).value, plan) != Some(EMPTY_HOOKS)
  {
    hide Install, Uninstall, Sound;
    var plan := Plan(node, script, dir);
    PlanIsSound(node, script, dir);
    EmptyHooksAreTaken(plan);
    UndoneExactlyWhenTidy(EMPTY_HOOKS, plan);
  }

  lemma EmptyHooksAreTaken(plan: seq<Hook>)
    requires Sound(plan)
    ensures Install(EMPTY_HOOKS, plan).Some?
  {
    hide InstallAll, Recognised;
    InstallRefused(EMPTY_HOOKS, plan);
  }
}

/**
 The approval settings of agents.toml (connector/src/config.ts, `parseConfig`): which mode an agent's
 sessions start in, which modes are known to ask before every step, and which a phone may choose.
 */
module Config {
  import opened Wrappers

  datatype Preset = Preset(askMode: string, safeModes: seq<string>, neverMode: string)

  const PRESETS: map<string, Preset> := map[
    "claude" := Preset("default", ["default", "plan"], "bypassPermissions"),
    "claude-attach" := Preset("default", ["default", "plan"], "bypassPermissions"),
    "codex" := Preset("read-only", ["read-only"], "agent-full-access"),
    "cursor" := Preset("ask", ["ask", "plan"], "agent")
  ]

  datatype Approval = Unset | Ask | Never | OtherApproval

  /** A list of strings as the file may hold it. */
  datatype Strings = Missing | List(value: seq<string>) | Malformed

  /** A flag as the file may hold it. */
  datatype Flag = NoFlag | IsTrue | IsFalse | NotAFlag

  /**
   One `[[agents]]` table.  `preset` and `askMode` are None when absent or empty; `command` says whether there is
   one; `rest` whether everything that has nothing to do with modes (roots, kind, env, args, rules) is in order.
   */
  datatype Raw = Raw(id: string, preset: Option<string>, command: bool, approval: Approval, askMode: Option<string>,
                     safeModes: Strings, existing: Flag, configDir: string, rest: bool)

  datatype Agent = Agent(id: string, askMode: string, safeModes: seq<string>, asking: set<string>, allowUnsafe: bool,
                         unattended: bool, attach: bool, configDir: string)

  datatype Problem = BadId | UsedTwice | UnknownPreset | NoCommand | BadApproval | NoAskMode | NotStrings
                   | UnsafeListed | NeverButAsks | DoesNotAsk | Rest | BadExisting

  predicate IdChar(c: char) {
    'A' <= c <= 'Z' || 'a' <= c <= 'z' || '0' <= c <= '9' || c == '.' || c == '_' || c == '-'
  }

  predicate IdOk(id: string) {
    1 <= |id| <= 64 && forall i :: 0 <= i < |id| ==> IdChar(id[i])
  }

  // ----- what the settings mean -----

  function PresetOf(raw: Raw): (p: Option<Preset>) {
    if raw.preset.Some? && raw.preset.value in PRESETS then Some(PRESETS[raw.preset.value]) else None
  }

  /** The owner's opt-in: the agent's own `approval` wins over the file's default. */
  predicate OptedIn(raw: Raw, fileAllows: bool) {
    raw.approval == Never || (raw.approval == Unset && fileAllows)
  }

  function AskModeOf(raw: Raw): (m: Option<string>) {
    if raw.askMode.Some? then raw.askMode
    else if PresetOf(raw).None? then None
    else Some(if raw.approval == Never then PresetOf(raw).value.neverMode else PresetOf(raw).value.askMode)
  }

  /** The modes declared to ask before every step: by the preset, or by the owner of a custom agent. */
  function Declared(raw: Raw): (r: seq<string>) {
    if PresetOf(raw).Some? then PresetOf(raw).value.safeModes
    else if raw.safeModes.List? then raw.safeModes.value
    else []
  }

  /**
   A mode counts as one that asks: it is declared to, or it is the ask mode nobody has to vouch for; never the mode
   of an agent that is not to ask.
   */
  predicate CountsAsAsking(raw: Raw, m: string) {
    if Some(m) == AskModeOf(raw) then
      raw.approval != Never && (m in Declared(raw) || PresetOf(raw).None? || raw.askMode.None?)
    else m in Declared(raw)
  }

  /** What a phone may choose without the opt-in, before the ask mode is put in or taken out. */
  function Listed(raw: Raw): (r: seq<string>) {
    if raw.safeModes.List? then raw.safeModes.value
    else if raw.safeModes.Malformed? then []
    else if PresetOf(raw).Some? then PresetOf(raw).value.safeModes
    else if AskModeOf(raw).Some? then [AskModeOf(raw).value]
    else []
  }

  predicate MayChoose(raw: Raw, m: string) {
    if Some(m) == AskModeOf(raw) then raw.approval != Never && (m in Listed(raw) || CountsAsAsking(raw, m))
    else m in Listed(raw)
  }

  /** The table is accepted. */
  predicate Acceptable(raw: Raw, fileAllows: bool, seen: set<string>) {
    && IdOk(raw.id) && raw.id !in seen
    && (raw.preset.Some? ==> raw.preset.value in PRESETS)
    && (raw.command || PresetOf(raw).Some?)
    && raw.approval != OtherApproval
    && AskModeOf(raw).Some?
    && !raw.safeModes.Malformed?
    && (PresetOf(raw).Some? && !OptedIn(raw, fileAllows) ==>
          (forall m :: m in Listed(raw) ==> m in Declared(raw)) && AskModeOf(raw).value in Declared(raw))
    && (raw.approval == Never && raw.askMode.Some? ==> raw.askMode.value !in Declared(raw))
    && raw.rest
  }

  /** The agent is what the table says. */
  ghost predicate Means(raw: Raw, fileAllows: bool, a: Agent) {
    && a.id == raw.id && a.configDir == raw.configDir
    && a.allowUnsafe == OptedIn(raw, fileAllows)
    && Some(a.askMode) == AskModeOf(raw)
    && (forall m :: m in a.asking <==> CountsAsAsking(raw, m))
    && (forall m :: m in a.safeModes <==> MayChoose(raw, m))
    && a.unattended == (a.askMode !in a.asking)
    && a.attach == (raw.preset == Some("claude-attach"))
  }

  /** Without the opt-in, the start mode and every mode a phone may choose ask before every step. */
  predicate Sound(a: Agent) {
    && (!a.allowUnsafe ==> a.askMode in a.asking && forall m :: m in a.safeModes ==> m in a.asking)
    && (a.unattended ==> a.allowUnsafe)
    && (a.unattended <==> a.askMode !in a.asking)
  }

  lemma PresetsAsk(name: string)
    requires name in PRESETS
    ensures PRESETS[name].askMode in PRESETS[name].safeModes
    ensures PRESETS[name].neverMode !in PRESETS[name].safeModes
  {
  }

  lemma AcceptedIsSound(raw: Raw, fileAllows: bool, seen: set<string>, a: Agent)
    requires Acceptable(raw, fileAllows, seen) && Means(raw, fileAllows, a)
    ensures Sound(a)
    ensures raw.approval == Never ==> a.unattended
  {
    if PresetOf(raw).Some? {
      PresetsAsk(raw.preset.value);
    }
  }

  // ----- the parser -----

  method Filter(ms: seq<string>, mode: string) returns (r: seq<string>)
    ensures forall m :: m in r <==> m in ms && m != mode
  {
    r := [];
    for i := 0 to |ms|
      invariant forall m :: m in r <==> m in ms[..i] && m != mode
    {
      if ms[i] != mode {
        r := r + [ms[i]];
      }
      assert ms[..i + 1] == ms[..i] + [ms[i]];
    }
    assert ms[..|ms|] == ms;
  }

  /** Reads one table, as the callback of `rawAgents.forEach` does; `problems` are those it adds. */
  method ParseAgent(raw: Raw, fileAllows: bool, seen: set<string>)
    returns (problems: seq<Problem>, agent: Option<Agent>)
    ensures problems == [] <==> Acceptable(raw, fileAllows, seen)
    ensures problems == [] ==> agent.Some? && Means(raw, fileAllows, agent.value)
  {
    problems, agent := [], None;
    if !IdOk(raw.id) {
      return [BadId], None;
    }
    if raw.id in seen {
      return [UsedTwice], None;
    }
    var preset: Option<Preset> := None;
    if raw.preset.Some? {
      if raw.preset.value !in PRESETS {
        return [UnknownPreset], None;
      }
      preset := Some(PRESETS[raw.preset.value]);
    }
    if !raw.command && preset.None? {
      return [NoCommand], None;
    }
    if raw.approval == OtherApproval {
      return [BadApproval], None;
    }
    var never := raw.approval == Never;
    var allowUnsafe := if raw.approval == Unset then fileAllows else never;
    var chosen := if raw.askMode.Some? then raw.askMode
                  else if preset.None? then None
                  else Some(if never then preset.value.neverMode else preset.value.askMode);
    if chosen.None? {
      return [NoAskMode], None;
    }
    var askMode := chosen.value;
    var listed: seq<string>;
    match raw.safeModes {
      case List(l) => listed := l;
      case Malformed =>
        problems := problems + [NotStrings];
        listed := [];
      case Missing => listed := if preset.Some? then preset.value.safeModes else [askMode];
    }
    var asking := if preset.Some? then (set m | m in preset.value.safeModes)
                  else if raw.safeModes.Missing? then {}
                  else set m | m in listed;
    var safeModes := listed;
    if preset.Some? && !allowUnsafe && exists m :: m in listed && m !in asking {
      problems := problems + [UnsafeListed];
    }
    if never {
      if raw.askMode.Some? && raw.askMode.value in asking {
        problems := problems + [NeverButAsks];
      }
      asking := asking - {askMode};
      safeModes := Filter(safeModes, askMode);
    } else if askMode !in asking {
      if preset.Some? && raw.askMode.Some? {
        if !allowUnsafe {
          problems := problems + [DoesNotAsk];
        }
      } else {
        asking := asking + {askMode};
      }
    }
    if askMode in asking && askMode !in safeModes {
      safeModes := safeModes + [askMode];
    }
    if !raw.rest {
      problems := problems + [Rest];
    }
    agent := Some(Agent(raw.id, askMode, safeModes, asking, allowUnsafe, askMode !in asking,
                        raw.preset == Some("claude-attach"), raw.configDir));
  }

  predicate DistinctIds(agents: seq<Agent>) {
    forall i, j :: 0 <= i < j < |agents| ==> agents[i].id != agents[j].id
  }

  /** Reads every table in turn. */
  method ParseAgents(raws: seq<Raw>, fileAllows: bool) returns (problems: seq<Problem>, agents: seq<Agent>)
    ensures problems == [] ==> |agents| == |raws| && DistinctIds(agents)
    ensures problems == [] ==> forall i :: 0 <= i < |raws| ==> Means(raws[i], fileAllows, agents[i]) && Sound(agents[i])
  {
    hide Means, Sound, Acceptable;
    problems, agents := [], [];
    var seen: set<string> := {};
    for i := 0 to |raws|
      invariant problems == [] ==> |agents| == i && DistinctIds(agents)
      invariant problems == [] ==>
                  forall j :: 0 <= j < i ==>
                    Means(raws[j], fileAllows, agents[j]) && Sound(agents[j]) && agents[j].id in seen
    {
      var more, agent := ParseAgent(raws[i], fileAllows, seen);
      if more == [] {
        AcceptedIsSound(raws[i], fileAllows, seen, agent.value);
        AcceptedIsNew(raws[i], fileAllows, seen, agent.value);
      }
      problems := problems + more;
      if agent.Some? {
        agents := agents + [agent.value];
      }
      if IdOk(raws[i].id) {
        seen := seen + {raws[i].id};
      }
    }
  }

  lemma AcceptedIsNew(raw: Raw, fileAllows: bool, seen: set<string>, a: Agent)
    requires Acceptable(raw, fileAllows, seen) && Means(raw, fileAllows, a)
    ensures a.id == raw.id && IdOk(raw.id) && raw.id !in seen
  {
  }

  const SUFFIX := "-sessions"

  function DerivedId(id: string): (r: string) {
    (if |id| > 64 - |SUFFIX| then id[..64 - |SUFFIX|] else id) + SUFFIX
  }

  predicate Derived(src: Agent, a: Agent) {
    a == src.(id := DerivedId(src.id), attach := true)
  }

  predicate FromOne(agents: seq<Agent>, a: Agent) {
    exists src :: src in agents && Derived(src, a)
  }

  lemma DerivedIsSound(agents: seq<Agent>, a: Agent)
    requires FromOne(agents, a) && forall i :: 0 <= i < |agents| ==> Sound(agents[i])
    ensures Sound(a)
  {
    var src :| src in agents && Derived(src, a);
    var i :| 0 <= i < |agents| && agents[i] == src;
    assert Sound(agents[i]);
  }

  /** An agent already reads the conversations of that directory. */
  predicate Attached(agents: seq<Agent>, dir: string) {
    exists i :: 0 <= i < |agents| && agents[i].attach && agents[i].configDir == dir
  }

  method FindAgent(agents: seq<Agent>, id: string) returns (r: Option<Agent>)
    ensures r.None? <==> forall i :: 0 <= i < |agents| ==> agents[i].id != id
    ensures r.Some? ==> r.value in agents && r.value.id == id
  {
    for i := 0 to |agents|
      invariant forall j :: 0 <= j < i ==> agents[j].id != id
    {
      if agents[i].id == id {
        return Some(agents[i]);
      }
    }
    return None;
  }

  /** The agents that list the conversations already on the machine (`existingSessionAgents`). */
  method ExistingSessions(raws: seq<Raw>, agents: seq<Agent>) returns (problems: seq<Problem>, out: seq<Agent>)
    requires DistinctIds(agents)
    ensures forall i :: 0 <= i < |out| ==> FromOne(agents, out[i])
    ensures DistinctIds(agents + out)
    ensures forall i :: 0 <= i < |out| ==> !Attached(agents + out[..i], out[i].configDir)
  {
    problems, out := [], [];
    var ids := set a | a in agents :: a.id;
    for i := 0 to |raws|
      invariant forall j :: 0 <= j < |out| ==> FromOne(agents, out[j])
      invariant DistinctIds(agents + out)
      invariant forall j :: 0 <= j < |agents + out| ==> (agents + out)[j].id in ids
      invariant forall j :: 0 <= j < |out| ==> !Attached(agents + out[..j], out[j].configDir)
    {
      var raw := raws[i];
      if raw.existing.NotAFlag? || (!raw.existing.NoFlag? && raw.preset != Some("claude")) {
        problems := problems + [BadExisting];
      } else if raw.preset == Some("claude") && !raw.existing.IsFalse? {
        var src := FindAgent(agents, raw.id);
        if src.Some? && !Attached(agents + out, src.value.configDir) {
          var id := DerivedId(src.value.id);
          if id !in ids {
            ids := ids + {id};
            var a := src.value.(id := id, attach := true);
            assert Derived(src.value, a);
            assert FromOne(agents, a);
            assert out[..|out|] == out;
            assert forall j :: 0 <= j < |out| ==> (out + [a])[..j] == out[..j];
            assert (out + [a])[..|out|] == out;
            assert agents + (out + [a]) == (agents + out) + [a];
            out := out + [a];
          }
        }
      }
    }
  }

  /** `parseConfig`: the agents, or None when the file is refused. */
  method Parse(raws: seq<Raw>, fileAllows: bool) returns (agents: Option<seq<Agent>>)
    ensures agents.Some? ==> DistinctIds(agents.value) && forall i :: 0 <= i < |agents.value| ==> Sound(agents.value[i])
    ensures agents.Some? ==>
              |raws| <= |agents.value| && forall i :: 0 <= i < |raws| ==> Means(raws[i], fileAllows, agents.value[i])
  {
    hide Means, Attached, Sound, FromOne;
    var problems, own := ParseAgents(raws, fileAllows);
    if problems != [] {
      return None;
    }
    var more, derived := ExistingSessions(raws, own);
    if more != [] {
      return None;
    }
    var all := own + derived;
    forall i | 0 <= i < |all| ensures Sound(all[i]) {
      if i >= |own| {
        DerivedIsSound(own, derived[i - |own|]);
      }
    }
    return Some(all);
  }
}

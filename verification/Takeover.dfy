/**
 A conversation taken over from a terminal (connector/src/session.ts: `guardedLaunch`, `watchTwins`,
 `preflight`, `runTurn`, `markTranscript`): other processes may open the transcript and write to it at
 any moment, and a prompt must only go to an agent whose memory is the whole transcript.
 */
module Takeover {
  import opened Wrappers

  /** One piece of the transcript; its size is at least one. */
  type Entry = nat

  /** A running agent and what it remembers; `read` once it has read the transcript. */
  datatype Adapter = Adapter(mem: seq<Entry>, read: bool)

  /** A watch over a launch or a turn: was another process seen; did one write since the watch began. */
  datatype Watch = Watch(seen: bool, wrote: bool)

  datatype Launch =
    | NoLaunch
    | Checking             // the check before anything is started
    | Starting(w: Watch)   // the adapter's process is starting
    | Opening(w: Watch)    // it runs and has yet to read the transcript
    | Read(w: Watch)       // it has read it
    | Marked(w: Watch)     // its size is noted; the last look is being made

  datatype Prompt =
    | Idle
    | Looking(live: bool)  // `preflight` is checking; `live` when there was an adapter as it began
    | Waiting              // for the launch
    | Cleared              // about to be sent
    | Turn(w: Watch)
    | Ending(w: Watch)     // the turn's end is noted; the last look is being made

  datatype State = State(transcript: seq<Entry>, open: bool, adapter: Option<Adapter>, mark: Option<nat>,
                         twinSeen: bool, launch: Launch, prompt: Prompt)

  datatype Step =
    | ForeignOpen
    | ForeignWrite(e: Entry)
    | ForeignClose
    | OwnWrite(e: Entry)
    | Exit                               // the adapter's process ends, or is dropped
    | Resume                             // a `resume` command with no adapter running
    | LaunchChecked(ok: bool)
    | Started(ok: bool)
    | ReadTranscript
    | LaunchMarks(size: Option<nat>)     // `transcriptSize`: None when it cannot be read
    | LaunchFinished(failed: bool)       // the last look; `failed` when it could not be made
    | LaunchFails
    | Peek                               // a look at the registry, in every watch under way
    | Begin                              // a prompt's turn comes
    | Looked(ok: bool, size: Option<nat>)
    | Send
    | SendFails
    | TurnOver(size: Option<nat>)
    | TurnFinished(failed: bool)

  /** What a size may be read as. */
  predicate SizeOf(t: State, size: Option<nat>) {
    size.Some? ==> size.value == |t.transcript|
  }

  predicate Enabled(t: State, s: Step) {
    match s
    case ForeignOpen => !t.open
    case ForeignWrite(_) => t.open
    case ForeignClose => t.open
    case OwnWrite(_) => t.adapter.Some? && t.adapter.value.read
    case Exit => t.adapter.Some?
    case Resume => t.adapter.None? && t.launch.NoLaunch? && !t.prompt.Cleared?  // the send follows at once
    case LaunchChecked(ok) => t.launch.Checking? && (ok ==> !t.open)
    case Started(_) => t.launch.Starting?
    case ReadTranscript => t.launch.Opening? && t.adapter.Some?
    case LaunchMarks(size) => t.launch.Read? && SizeOf(t, size)
    case LaunchFinished(_) => t.launch.Marked?
    case LaunchFails => t.launch.Opening? || t.launch.Read?
    case Peek => true
    case Begin => t.prompt.Idle?
    case Looked(ok, size) => t.prompt.Looking? && (ok ==> !t.open) && SizeOf(t, size)
    case Send => t.prompt.Cleared? && t.adapter.Some?
    case SendFails => t.prompt.Cleared? && t.adapter.None?
    case TurnOver(size) => t.prompt.Turn? && SizeOf(t, size)
    case TurnFinished(_) => t.prompt.Ending?
  }

  function WithWatch(l: Launch, w: Watch): (r: Launch) {
    match l
    case Starting(_) => Starting(w)
    case Opening(_) => Opening(w)
    case Read(_) => Read(w)
    case Marked(_) => Marked(w)
    case _ => l
  }

  predicate Watching(l: Launch) {
    l.Starting? || l.Opening? || l.Read? || l.Marked?
  }

  /** Every watch under way takes in `seen` and `wrote`. */
  function Noted(t: State, seen: bool, wrote: bool): (r: State) {
    var launch :=
      if Watching(t.launch) then WithWatch(t.launch, Watch(t.launch.w.seen || seen, t.launch.w.wrote || wrote))
      else t.launch;
    var prompt := match t.prompt
      case Turn(w) => Turn(Watch(w.seen || seen, w.wrote || wrote))
      case Ending(w) => Ending(Watch(w.seen || seen, w.wrote || wrote))
      case _ => t.prompt;
    t.(launch := launch, prompt := prompt)
  }

  /** The launch is over without an agent: whoever waits for it is refused. */
  function Refused(t: State): (r: State) {
    t.(adapter := None, launch := NoLaunch, prompt := if t.prompt.Waiting? then Idle else t.prompt)
  }

  /** `ensureAdapter`: a running agent is used as it is; otherwise one is launched, or the launch under way joined. */
  function Ensured(t: State): (r: State) {
    if t.adapter.Some? then t.(prompt := Cleared)
    else t.(prompt := Waiting, launch := if t.launch.NoLaunch? then Checking else t.launch)
  }

  /** Whether the last look of a watch shows another process. */
  predicate LastLook(t: State, w: Watch, failed: bool) {
    w.seen || t.open || failed
  }

  function Apply(t: State, s: Step): (r: State)
    requires Enabled(t, s)
  {
    match s
    case ForeignOpen => t.(open := true)
    case ForeignWrite(e) => Noted(t, false, true).(transcript := t.transcript + [e])
    case ForeignClose => t.(open := false)
    case OwnWrite(e) => t.(transcript := t.transcript + [e], adapter := Some(Adapter(t.adapter.value.mem + [e], true)))
    case Exit => t.(adapter := None)
    case Resume => t.(launch := Checking)
    case LaunchChecked(ok) => if ok then t.(launch := Starting(Watch(false, false))) else Refused(t)
    case Started(ok) =>
      if ok then t.(adapter := Some(Adapter([], false)), launch := Opening(t.launch.w)) else Refused(t)
    case ReadTranscript => t.(adapter := Some(Adapter(t.transcript, true)), launch := Read(t.launch.w))
    case LaunchMarks(size) => t.(mark := size, launch := Marked(t.launch.w))
    case LaunchFinished(failed) =>
      if LastLook(t, t.launch.w, failed) then Refused(t)
      else t.(twinSeen := false, launch := NoLaunch, prompt := if t.prompt.Waiting? then Cleared else t.prompt)
    case LaunchFails => Refused(t)
    case Peek => Noted(t, t.open, false)
    case Begin =>
      if t.adapter.Some? && t.twinSeen then t.(adapter := None, prompt := Looking(false))
      else t.(prompt := Looking(t.adapter.Some?))
    case Looked(ok, size) =>
      if !ok then t.(adapter := if t.prompt.live then None else t.adapter, prompt := Idle)
      else if t.prompt.live && t.mark.Some? && size.Some? && size.value != t.mark.value then
        t.(adapter := None, prompt := Looking(false))
      else Ensured(t)
    case Send => t.(prompt := Turn(Watch(false, false)))
    case SendFails => t.(prompt := Idle)
    case TurnOver(size) => t.(mark := size, prompt := Ending(t.prompt.w))
    case TurnFinished(failed) =>
      t.(twinSeen := t.twinSeen || LastLook(t, t.prompt.w, failed), prompt := Idle)
  }

  /** The conversation as it is found, with nothing running. */
  function Found(transcript: seq<Entry>, open: bool): (t: State) {
    State(transcript, open, None, None, false, NoLaunch, Idle)
  }

  /**
   The session, its methods cut at their awaits.  `t` is the session in its surroundings (the transcript, and whether
   another process has it open) at the moment the method goes on.
   */
  class Session {
    var adapter: Option<Adapter>
    var transcriptMark: Option<nat>
    var twinSeen: bool
    var launching: Launch
    var prompt: Prompt

    function In(transcript: seq<Entry>, open: bool): (t: State)
      reads this
    {
      State(transcript, open, adapter, transcriptMark, twinSeen, launching, prompt)
    }

    constructor ()
      ensures forall transcript, open :: In(transcript, open) == Found(transcript, open)
    {
      adapter, transcriptMark, twinSeen, launching, prompt := None, None, false, NoLaunch, Idle;
    }

    /** `preflight` up to its check. */
    method Preflight(ghost t: State)
      requires t == In(t.transcript, t.open) && Enabled(t, Begin)
      modifies this
      ensures In(t.transcript, t.open) == Apply(t, Begin)
    {
      var live := adapter.Some?;
      if live && twinSeen {
        adapter := None;
        live := false;
      }
      prompt := Looking(live);
    }

    /** `preflight` after its check, and `ensureAdapter` when the prompt may go on. */
    method Checked(ghost t: State, ok: bool, size: Option<nat>)
      requires t == In(t.transcript, t.open) && Enabled(t, Looked(ok, size))
      modifies this
      ensures In(t.transcript, t.open) == Apply(t, Looked(ok, size))
    {
      var live := prompt.live;
      if !ok {
        if live {
          adapter := None;
        }
        prompt := Idle;
        return;
      }
      if live && transcriptMark.Some? {
        if size.Some? && size.value != transcriptMark.value {
          adapter := None;
          prompt := Looking(false);
          return;
        }
      }
      if adapter.Some? {
        prompt := Cleared;
        return;
      }
      prompt := Waiting;
      if launching.NoLaunch? {
        launching := Checking;
      }
    }

    /** `runTurn` hands the prompt over; the watch begins with it. */
    method SendPrompt(ghost t: State)
      requires t == In(t.transcript, t.open) && Enabled(t, Send)
      modifies this
      ensures In(t.transcript, t.open) == Apply(t, Send)
    {
      prompt := Turn(Watch(false, false));
    }

    /** The end of `runTurn`, up to the last look. */
    method EndTurn(ghost t: State, size: Option<nat>)
      requires t == In(t.transcript, t.open) && Enabled(t, TurnOver(size))
      modifies this
      ensures In(t.transcript, t.open) == Apply(t, TurnOver(size))
    {
      transcriptMark := size;
      prompt := Ending(prompt.w);
    }

    /** After the last look of a turn: `seen` is what `finish` answers. */
    method AfterTurn(ghost t: State, seen: bool, ghost failed: bool)
      requires t == In(t.transcript, t.open) && Enabled(t, TurnFinished(failed))
               && seen == LastLook(t, t.prompt.w, failed)
      modifies this
      ensures In(t.transcript, t.open) == Apply(t, TurnFinished(failed))
    {
      if seen {
        twinSeen := true;
      }
      prompt := Idle;
    }

    /** `guardedLaunch` after its check. */
    method GuardedLaunch(ghost t: State, ok: bool)
      requires t == In(t.transcript, t.open) && Enabled(t, LaunchChecked(ok))
      modifies this
      ensures In(t.transcript, t.open) == Apply(t, LaunchChecked(ok))
    {
      if ok {
        launching := Starting(Watch(false, false));
      } else {
        Refuse();
      }
    }

    method Refuse()
      modifies this
      ensures forall transcript, open :: In(transcript, open) == Refused(old(In(transcript, open)))
    {
      adapter := None;
      launching := NoLaunch;
      if prompt.Waiting? {
        prompt := Idle;
      }
    }

    /** `guardedLaunch` once the agent is up: its size is noted before the last look. */
    method MarkLaunch(ghost t: State, size: Option<nat>)
      requires t == In(t.transcript, t.open) && Enabled(t, LaunchMarks(size))
      modifies this
      ensures In(t.transcript, t.open) == Apply(t, LaunchMarks(size))
    {
      transcriptMark := size;
      launching := Marked(launching.w);
    }

    /** After the last look of a launch: an agent that may lack something is dropped. */
    method AfterLaunch(ghost t: State, seen: bool, ghost failed: bool)
      requires t == In(t.transcript, t.open) && Enabled(t, LaunchFinished(failed))
               && seen == LastLook(t, t.launch.w, failed)
      modifies this
      ensures In(t.transcript, t.open) == Apply(t, LaunchFinished(failed))
    {
      if seen {
        Refuse();
        return;
      }
      twinSeen := false;
      launching := NoLaunch;
      if prompt.Waiting? {
        prompt := Cleared;
      }
    }
  }

  /** The agent about to be prompted remembers the whole transcript. */
  predicate RemembersAll(t: State) {
    t.adapter.Some? && t.adapter.value.mem == t.transcript
  }

  // ----- what is promised, and under what -----

  /**
   A process that wrote during a launch or a turn was seen by at least one look; none writes between the last look and
   the send.
   */
  predicate Observed(t: State, s: Step)
    requires Enabled(t, s)
  {
    match s
    case ForeignWrite(_) => !t.prompt.Cleared?
    case LaunchFinished(failed) => t.launch.w.wrote ==> LastLook(t, t.launch.w, failed)
    case TurnFinished(failed) => t.prompt.w.wrote ==> LastLook(t, t.prompt.w, failed)
    case _ => true
  }

  /** The transcript's size can be read. */
  predicate Readable(s: Step) {
    match s
    case LaunchMarks(size) => size.Some?
    case TurnOver(size) => size.Some?
    case Looked(_, size) => size.Some?
    case _ => true
  }

  /** A launch is under way whose agent does not run yet. */
  predicate NotYetRunning(t: State) {
    t.adapter.None? && (t.launch.Checking? || t.launch.Starting?)
  }

  /**
   The agent being launched is one `preflight` would take for ready: it runs, was not seen to share the conversation,
   and its size is still to be noted, or was noted after something it has not read.
   */
  predicate TakenForReady(t: State) {
    && t.adapter.Some? && !t.twinSeen
    && (t.launch.Opening? || t.launch.Read?
        || (t.launch.Marked? && t.mark == Some(|t.transcript|) && !RemembersAll(t)))
  }

  predicate TooEarly(t: State) {
    NotYetRunning(t) || TakenForReady(t)
  }

  /** A `resume` does not start a launch while a prompt is being looked at, nor does a prompt begin too early in one. */
  predicate Apart(t: State, s: Step) {
    match s
    case Resume => !t.prompt.Looking?
    case Begin => !TooEarly(t)
    case _ => true
  }

  predicate Fair(t: State, s: Step)
    requires Enabled(t, s)
  {
    Observed(t, s) && Readable(s) && Apart(t, s)
  }

  ghost predicate Legal(t: State, steps: seq<Step>)
    decreases |steps|
  {
    steps == [] || (Enabled(t, steps[0]) && Legal(Apply(t, steps[0]), steps[1..]))
  }

  ghost function Run(t: State, steps: seq<Step>): (r: State)
    requires Legal(t, steps)
    decreases |steps|
  {
    if steps == [] then t else Run(Apply(t, steps[0]), steps[1..])
  }

  ghost predicate AllFair(t: State, steps: seq<Step>)
    requires Legal(t, steps)
    decreases |steps|
  {
    steps == [] || (Fair(t, steps[0]) && AllFair(Apply(t, steps[0]), steps[1..]))
  }

  // ----- what every fair step keeps -----

  predicate MarkBounded(t: State) {
    t.mark.Some? && t.mark.value <= |t.transcript|
  }

  /** As long as the transcript has the noted size, the agent remembers all of it. */
  predicate MarkTells(t: State) {
    MarkBounded(t) && (t.mark.value == |t.transcript| ==> RemembersAll(t))
  }

  predicate LaunchInv(t: State) {
    match t.launch
    case NoLaunch => t.adapter.Some? ==> t.adapter.value.read
    case Checking => t.adapter.None?
    case Starting(_) => t.adapter.None?
    case Opening(_) => t.adapter.Some? ==> !t.adapter.value.read
    case Read(w) => t.adapter.Some? ==> t.adapter.value.read && (w.wrote || RemembersAll(t))
    case Marked(w) =>
      t.adapter.Some? ==> t.adapter.value.read && MarkBounded(t) && (w.wrote || (RemembersAll(t) && MarkTells(t)))
  }

  predicate PromptInv(t: State) {
    match t.prompt
    case Idle => t.launch.NoLaunch? && t.adapter.Some? ==> t.twinSeen || MarkTells(t)
    case Looking(live) =>
      && !t.launch.Checking? && !t.launch.Starting?
      && (t.adapter.Some? ==> (t.launch.NoLaunch? || t.launch.Marked?) && live && MarkTells(t))
    case Waiting => !t.launch.NoLaunch?
    case Cleared => (t.launch.NoLaunch? || t.launch.Marked?) && (t.adapter.Some? ==> RemembersAll(t))
    case Turn(w) => t.launch.NoLaunch? && t.adapter.Some? ==> w.wrote || RemembersAll(t)
    case Ending(w) => t.launch.NoLaunch? && t.adapter.Some? ==> w.wrote || MarkTells(t)
  }

  predicate Inv(t: State) {
    LaunchInv(t) && PromptInv(t)
  }

  predicate OfLaunch(s: Step) {
    || s.Resume? || s.LaunchChecked? || s.Started? || s.ReadTranscript? || s.LaunchMarks? || s.LaunchFinished?
    || s.LaunchFails?
  }

  predicate OfPrompt(s: Step) {
    s.Begin? || s.Looked? || s.Send? || s.SendFails? || s.TurnOver? || s.TurnFinished?
  }

  lemma LaunchKeeps(t: State, s: Step)
    requires Inv(t) && Enabled(t, s) && Fair(t, s) && OfLaunch(s)
    ensures Inv(Apply(t, s))
  {
  }

  lemma PromptKeeps(t: State, s: Step)
    requires Inv(t) && Enabled(t, s) && Fair(t, s) && OfPrompt(s)
    ensures Inv(Apply(t, s))
  {
  }

  lemma OtherKeeps(t: State, s: Step)
    requires Inv(t) && Enabled(t, s) && Fair(t, s) && !OfLaunch(s) && !OfPrompt(s)
    ensures Inv(Apply(t, s))
  {
  }

  lemma StepKeeps(t: State, s: Step)
    requires Inv(t) && Enabled(t, s) && Fair(t, s)
    ensures Inv(Apply(t, s))
  {
    hide Inv, Apply, Enabled, Fair;
    if OfLaunch(s) {
      LaunchKeeps(t, s);
    } else if OfPrompt(s) {
      PromptKeeps(t, s);
    } else {
      OtherKeeps(t, s);
    }
  }

  lemma {:induction false} RunKeeps(t: State, steps: seq<Step>)
    requires Inv(t) && Legal(t, steps) && AllFair(t, steps)
    ensures Inv(Run(t, steps))
    decreases |steps|
  {
    hide Inv, Apply, Enabled, Fair;
    if steps != [] {
      StepKeeps(t, steps[0]);
      RunKeeps(Apply(t, steps[0]), steps[1..]);
    }
  }

  /** In every fair run, a prompt is only sent to an agent that remembers the whole transcript. */
  lemma PromptedAgentsRememberAll(transcript: seq<Entry>, open: bool, steps: seq<Step>)
    requires Legal(Found(transcript, open), steps) && AllFair(Found(transcript, open), steps)
    ensures var t := Run(Found(transcript, open), steps);
            Enabled(t, Send) ==> RemembersAll(t)
  {
    RunKeeps(Found(transcript, open), steps);
  }

  // ----- the two conditions are needed -----

  /** The run goes on fairly to a prompt that is about to go to an agent which does not remember everything. */
  ghost predicate GoesWrong(t: State, more: seq<Step>) {
    Legal(t, more) && AllFair(t, more) && var u := Run(t, more); Enabled(u, Send) && !RemembersAll(u)
  }

  lemma WrongNow(t: State)
    requires Enabled(t, Send) && !RemembersAll(t)
    ensures GoesWrong(t, [])
  {
  }

  lemma WrongLater(t: State, s: Step, more: seq<Step>) returns (all: seq<Step>)
    requires Enabled(t, s) && Fair(t, s) && GoesWrong(Apply(t, s), more)
    ensures GoesWrong(t, all)
  {
    all := [s] + more;
    assert all[1..] == more;
  }

  /** The agent starts, has read nothing, and `preflight` takes it for one that is ready. */
  lemma UnreadAgentPrompted(t: State) returns (more: seq<Step>)
    requires t.prompt.Looking? && !t.open && t.launch.Starting? && t.adapter.None? && t.transcript != []
    requires !t.prompt.live || t.mark.None? || t.mark.value == |t.transcript|
    ensures GoesWrong(t, more)
  {
    var size := Some(|t.transcript|);
    var t1 := Apply(t, Started(true));
    var t2 := Apply(t1, Looked(true, size));
    WrongNow(t2);
    more := WrongLater(t1, Looked(true, size), []);
    more := WrongLater(t, Started(true), more);
  }

  /** The same after `preflight` has discarded the agent it found, if it has to. */
  lemma LookingDuringStart(t: State) returns (more: seq<Step>)
    requires t.prompt.Looking? && !t.open && t.launch.Starting? && t.adapter.None? && t.transcript != []
    ensures GoesWrong(t, more)
  {
    if !t.prompt.live || t.mark.None? || t.mark.value == |t.transcript| {
      more := UnreadAgentPrompted(t);
    } else {
      var look := Looked(true, Some(|t.transcript|));
      more := UnreadAgentPrompted(Apply(t, look));
      more := WrongLater(t, look, more);
    }
  }

  lemma LookingDuringLaunch(t: State) returns (more: seq<Step>)
    requires t.prompt.Looking? && !t.open && NotYetRunning(t) && t.transcript != []
    ensures GoesWrong(t, more)
  {
    if t.launch.Starting? {
      more := LookingDuringStart(t);
    } else {
      more := LookingDuringStart(Apply(t, LaunchChecked(true)));
      more := WrongLater(t, LaunchChecked(true), more);
    }
  }

  /** Another process writes something and leaves, so that there is something to miss. */
  lemma SomethingToMiss(t: State) returns (more: seq<Step>)
    requires t.prompt.Looking? && NotYetRunning(t)
    ensures GoesWrong(t, more)
  {
    var t1 := if t.open then t else Apply(t, ForeignOpen);
    var t2 := Apply(t1, ForeignWrite(0));
    var t3 := Apply(t2, ForeignClose);
    more := LookingDuringLaunch(t3);
    more := WrongLater(t2, ForeignClose, more);
    more := WrongLater(t1, ForeignWrite(0), more);
    if !t.open {
      more := WrongLater(t, ForeignOpen, more);
    }
  }

  /** The noted size is the present one, so `preflight` takes the agent for one that remembers everything. */
  lemma MarkMisleads(t: State) returns (more: seq<Step>)
    requires t.prompt == Looking(true) && t.launch.Marked? && t.mark == Some(|t.transcript|)
    requires t.adapter.Some? && !RemembersAll(t)
    ensures GoesWrong(t, more)
  {
    var t1 := if t.open then Apply(t, ForeignClose) else t;
    var look := Looked(true, Some(|t.transcript|));
    WrongNow(Apply(t1, look));
    more := WrongLater(t1, look, []);
    if t.open {
      more := WrongLater(t, ForeignClose, more);
    }
  }

  /** Another process writes before the size is noted, which then takes in what the agent has not read. */
  lemma MarkedTooLate(t: State) returns (more: seq<Step>)
    requires t.prompt == Looking(true) && t.launch.Read? && t.adapter.Some?
    ensures GoesWrong(t, more)
  {
    var e := if t.adapter.value.mem == t.transcript + [0] then 1 else 0;
    assert (t.transcript + [0])[|t.transcript|] != (t.transcript + [1])[|t.transcript|];
    var t1 := if t.open then t else Apply(t, ForeignOpen);
    var t2 := Apply(t1, ForeignWrite(e));
    var marks := LaunchMarks(Some(|t2.transcript|));
    more := MarkMisleads(Apply(t2, marks));
    more := WrongLater(t2, marks, more);
    more := WrongLater(t1, ForeignWrite(e), more);
    if !t.open {
      more := WrongLater(t, ForeignOpen, more);
    }
  }

  lemma LookingTooEarly(t: State) returns (more: seq<Step>)
    requires Enabled(t, Begin) && TooEarly(t)
    ensures GoesWrong(Apply(t, Begin), more)
  {
    hide GoesWrong;
    var u := Apply(t, Begin);
    if NotYetRunning(t) {
      more := SomethingToMiss(u);
    } else if t.launch.Opening? {
      more := MarkedTooLate(Apply(u, ReadTranscript));
      more := WrongLater(u, ReadTranscript, more);
    } else if t.launch.Read? {
      more := MarkedTooLate(u);
    } else {
      more := MarkMisleads(u);
    }
  }

  /** From a state that keeps the invariant no fair run goes wrong. */
  lemma NeverGoesWrong(t: State, more: seq<Step>)
    requires Inv(t)
    ensures !GoesWrong(t, more)
  {
    hide Inv, Apply, Enabled;
    if Legal(t, more) && AllFair(t, more) {
      RunKeeps(t, more);
      ClearedRemembers(Run(t, more));
    }
  }

  lemma Reachable(transcript: seq<Entry>, open: bool, steps: seq<Step>)
    requires Legal(Found(transcript, open), steps) && AllFair(Found(transcript, open), steps)
    ensures Inv(Run(Found(transcript, open), steps))
  {
    hide Apply, Enabled, Inv;
    FoundInv(transcript, open);
    RunKeeps(Found(transcript, open), steps);
  }

  /**
   A prompt that begins while an agent is being launched can reach it before it remembers the whole transcript exactly
   when it begins too early: before the agent runs, or while the size that would give it away is not noted yet, or is
   noted and already takes in what the agent lacks.
   */
  lemma BeginBreaksExactlyWhenTooEarly(transcript: seq<Entry>, open: bool, steps: seq<Step>)
    requires Legal(Found(transcript, open), steps) && AllFair(Found(transcript, open), steps)
    requires Enabled(Run(Found(transcript, open), steps), Begin)
    ensures var t := Run(Found(transcript, open), steps);
            TooEarly(t) <==> exists more :: GoesWrong(Apply(t, Begin), more)
  {
    hide Apply, Enabled, Inv, TooEarly, GoesWrong;
    Reachable(transcript, open, steps);
    var t := Run(Found(transcript, open), steps);
    if TooEarly(t) {
      var more := LookingTooEarly(t);
    } else {
      StepKeeps(t, Begin);
      forall more ensures !GoesWrong(Apply(t, Begin), more) {
        NeverGoesWrong(Apply(t, Begin), more);
      }
    }
  }

  lemma ResumeWhileLooking(t: State) returns (more: seq<Step>)
    requires Enabled(t, Resume) && t.prompt.Looking?
    ensures GoesWrong(Apply(t, Resume), more)
  {
    more := SomethingToMiss(Apply(t, Resume));
  }

  /**
   A `resume` can let a prompt reach an agent that has not read the transcript exactly when it comes while
   `preflight` is looking for that prompt: the agent being launched is then taken for one that is ready.
   */
  lemma ResumeBreaksExactlyWhileLooking(transcript: seq<Entry>, open: bool, steps: seq<Step>)
    requires Legal(Found(transcript, open), steps) && AllFair(Found(transcript, open), steps)
    requires Enabled(Run(Found(transcript, open), steps), Resume)
    ensures var t := Run(Found(transcript, open), steps);
            t.prompt.Looking? <==> exists more :: GoesWrong(Apply(t, Resume), more)
  {
    hide Apply, Enabled, Inv, GoesWrong;
    Reachable(transcript, open, steps);
    var t := Run(Found(transcript, open), steps);
    if t.prompt.Looking? {
      var more := ResumeWhileLooking(t);
    } else {
      StepKeeps(t, Resume);
      forall more ensures !GoesWrong(Apply(t, Resume), more) {
        NeverGoesWrong(Apply(t, Resume), more);
      }
    }
  }

  lemma FoundInv(transcript: seq<Entry>, open: bool)
    ensures Inv(Found(transcript, open))
  {
  }

  lemma ClearedRemembers(t: State)
    requires Inv(t)
    ensures Enabled(t, Send) ==> RemembersAll(t)
  {
  }

  /** Another process opens the conversation between two turns, writes and leaves. */
  function Visited(t: State, e: Entry): (r: State)
    requires !t.open
  {
    Apply(Apply(Apply(t, ForeignOpen), ForeignWrite(e)), ForeignClose)
  }

  /**
   After such a visit the next prompt goes to the agent that was running, whose memory lacks what was written,
   exactly when the size is not to be had: not now, or not when it was noted.
   */
  lemma VisitUnnoticedExactlyWhenUnreadable(t: State, e: Entry, size: Option<nat>)
    requires t.prompt.Idle? && t.launch.NoLaunch? && t.adapter.Some? && !t.twinSeen && !t.open
    requires t.adapter.value.mem == t.transcript && (t.mark.Some? ==> t.mark.value == |t.transcript|)
    requires SizeOf(Visited(t, e), size)
    ensures var u := Apply(Apply(Visited(t, e), Begin), Looked(true, size));
            && (u.prompt.Cleared? <==> t.mark.None? || size.None?)
            && (u.prompt.Cleared? ==> Enabled(u, Send) && !RemembersAll(u))
  {
    assert |t.adapter.value.mem| < |Visited(t, e).transcript|;
  }
}

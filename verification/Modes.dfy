/**
 The ask-mode lock of a session (connector/src/session.ts: the constructor, `create`, `attach`, `enforceMode`,
 `noteMode`, `setMode`, `resume`), over every run: commands, reports of the adapter at any moment, several
 `enforceMode` under way at once, restarts with a changed agents.toml.
 */
module Modes {
  import opened Wrappers
  import opened Config

  /** The adapter reported a mode, at that moment. */
  datatype Note = Note(mode: string, at: nat)

  datatype Lock = Lock(agent: Agent, target: string, current: Option<string>, offered: seq<string>, seen: seq<Note>,
                       enforcing: bool)

  predicate Offers(l: Lock, mode: string) {
    l.offered == [] || mode in l.offered
  }

  predicate Allowed(l: Lock, mode: string) {
    mode in l.agent.safeModes || (l.agent.allowUnsafe && Offers(l, mode))
  }

  /** A session as it is made, or made again after a restart from the mode on record. */
  function Made(agent: Agent, recorded: Option<string>): (l: Lock) {
    var wanted := if recorded.Some? then recorded.value else agent.askMode;
    var target := if wanted !in agent.safeModes && !agent.allowUnsafe then agent.askMode else wanted;
    Lock(agent, target, None, [], [], false)
  }

  /** A `session.new` may ask for this mode. */
  predicate MayRequest(agent: Agent, mode: string) {
    mode in agent.safeModes || agent.allowUnsafe
  }

  function Starting(l: Lock): (r: Lock) {
    l.(enforcing := true, seen := [])
  }

  function Taken(l: Lock, mode: string): (r: Lock) {
    l.(current := Some(mode), target := mode, enforcing := false)
  }

  /** The adapter reports a mode: it is noted, and outside an enforcement it becomes the current one. */
  function Noted(l: Lock, n: Note): (r: Lock) {
    var l' := l.(seen := l.seen + [n]);
    if l.enforcing then l' else l'.(current := Some(n.mode))
  }

  predicate Reverts(l: Lock, n: Note) {
    !l.enforcing && l.current != Some(n.mode) && !Allowed(l, n.mode)
  }

  class Session {
    const agent: Agent
    var targetMode: string
    var currentMode: Option<string>
    var modes: seq<string>
    var modeSeen: seq<Note>
    var enforcing: bool

    function View(): (l: Lock)
      reads this
    {
      Lock(agent, targetMode, currentMode, modes, modeSeen, enforcing)
    }

    constructor (agent: Agent, mode: Option<string>)
      ensures View() == Made(agent, mode)
    {
      this.agent := agent;
      currentMode, modes, modeSeen, enforcing := None, [], [], false;
      var target := if mode.Some? then mode.value else agent.askMode;
      if target !in agent.safeModes && !agent.allowUnsafe && target != agent.askMode {
        target := agent.askMode;
      }
      targetMode := target;
    }

    method ModeAllowed(mode: string) returns (r: bool)
      ensures r == Allowed(View(), mode)
    {
      r := mode in agent.safeModes || (agent.allowUnsafe && (|modes| == 0 || mode in modes));
    }

    /** The start of `create` and `attach`: false when the request is refused. */
    method Choose(requested: Option<string>) returns (ok: bool)
      modifies this`targetMode
      ensures ok == (requested.None? || MayRequest(agent, requested.value))
      ensures View() == if ok && requested.Some? then old(View()).(target := requested.value) else old(View())
    {
      if requested.Some? && requested.value !in agent.safeModes && !agent.allowUnsafe {
        return false;
      }
      if requested.Some? {
        targetMode := requested.value;
      }
      return true;
    }

    /** `enforceMode` up to its request; false when the adapter does not offer the mode. */
    method StartEnforcing(mode: string) returns (ok: bool)
      modifies this`enforcing, this`modeSeen
      ensures ok == Offers(old(View()), mode)
      ensures View() == if ok then Starting(old(View())) else old(View())
    {
      if |modes| != 0 && mode !in modes {
        return false;
      }
      enforcing := true;
      modeSeen := [];
      return true;
    }

    /** `enforceMode` once the mode was read back (or not). */
    method FinishEnforcing(mode: string, confirmed: Option<string>) returns (ok: bool)
      modifies this`enforcing, this`currentMode, this`targetMode
      ensures ok == (confirmed == Some(mode))
      ensures View() == if ok then Taken(old(View()), mode) else old(View()).(enforcing := false)
    {
      ok := confirmed == Some(mode);
      if ok {
        currentMode := confirmed;
        targetMode := mode;
      }
      enforcing := false;
    }

    /** True when the mode has to be undone. */
    method NoteMode(n: Note) returns (revert: bool)
      modifies this`modeSeen, this`currentMode
      ensures View() == Noted(old(View()), n)
      ensures revert == Reverts(old(View()), n)
    {
      modeSeen := modeSeen + [n];
      if enforcing || Some(n.mode) == currentMode {
        return false;
      }
      currentMode := Some(n.mode);
      revert := n.mode !in agent.safeModes && !(agent.allowUnsafe && (|modes| == 0 || n.mode in modes));
    }
  }

  // ----- runs -----

  /** Why a mode is being enforced, which decides what follows a failure. */
  datatype Reason = ForLaunch | ForRevert | ForResume | ForChoice(previous: string) | ForReturn

  /** One `enforceMode` under way since `start`; `answered` once `set_mode` has come back. */
  datatype Enforcement = Enforcement(mode: string, start: nat, answered: bool, why: Reason)

  /** A `set_mode` request sent to the adapter of a session with this agent. */
  datatype Asked = Asked(agent: Agent, mode: string, start: nat)

  /** A launch that succeeded: the mode it enforced since `start`, and the report it read, made at `at`. */
  datatype Launched = Launched(agent: Agent, mode: string, start: nat, report: Note)

  datatype World = World(lock: Lock, live: bool, closed: bool, under: set<Enforcement>, recorded: Option<string>,
                         now: nat, reset: nat,
                         asked: set<Asked>, launched: set<Launched>)

  datatype Step =
    | Choose(requested: Option<string>)
    | Launch(offered: seq<string>, current: Option<string>)   // the adapter runs and has opened the conversation
    | Answer(e: Enforcement, ok: bool)
    | OptionAnswer(e: Enforcement, mode: string)                // the mode option's value, in answer to a request
    | Notification(e: Enforcement)                              // the last mode the adapter reported
    | Unconfirmed(e: Enforcement)                               // neither came in time, or the request failed
    | Report(mode: string)
    | SetMode(mode: string)
    | Resume
    | Exit
    | Close
    | Record                                                    // the session is put on record in the mode it is in
    | Restart(agent: Agent)

  predicate Enabled(w: World, s: Step) {
    match s
    case Choose(_) => w.lock.offered == [] && !w.live
    case Launch(_, _) => !w.live && !w.closed
    case Answer(e, _) => e in w.under && !e.answered
    case OptionAnswer(e, _) => e in w.under && e.answered
    case Notification(e) => e in w.under && e.answered && w.lock.seen != []
    case Unconfirmed(e) => e in w.under && e.answered
    case Report(_) => w.live
    case SetMode(_) => w.live
    case Resume => w.live && !w.closed
    case Exit => w.live
    case Close => true
    case Record => true
    case Restart(agent) => Sound(agent)
  }

  /**
   `enforceMode(mode)` begins: refused when there is no adapter or it lacks the mode, otherwise the request is sent.
   */
  function Enforce(w: World, mode: string, why: Reason): (r: World) {
    if w.live && Offers(w.lock, mode) then
      w.(lock := Starting(w.lock), reset := w.now, now := w.now + 1,
      under := w.under + {Enforcement(mode, w.now, false, why)}, asked := w.asked + {Asked(w.lock.agent, mode, w.now)})
    else if why.ForChoice? then Retry(w, why.previous)
    else w.(closed := true, live := false)
  }

  /** A chosen mode that was not taken: back to the one before. */
  function Retry(w: World, previous: string): (r: World) {
    if w.live && Offers(w.lock, previous) then
      w.(lock := Starting(w.lock), reset := w.now, now := w.now + 1,
      under := w.under + {Enforcement(previous, w.now, false, ForReturn)},
      asked := w.asked + {Asked(w.lock.agent, previous, w.now)})
    else w.(closed := true, live := false)
  }

  function Failed(w: World, e: Enforcement): (r: World) {
    var w' := w.(lock := w.lock.(enforcing := false), under := w.under - {e});
    if e.why.ForChoice? then Retry(w', e.why.previous) else w'.(closed := true, live := false)
  }

  /** The mode was read back as `report` says. */
  function Back(w: World, e: Enforcement, report: Note): (r: World) {
    if report.mode != e.mode then Failed(w, e)
    else
      w.(lock := Taken(w.lock, e.mode), under := w.under - {e}, recorded := Some(e.mode),
      launched := if e.why.ForLaunch? then w.launched + {Launched(w.lock.agent, e.mode, e.start, report)}
                  else w.launched)
  }

  function Apply(w: World, s: Step): (r: World)
    requires Enabled(w, s)
  {
    match s
    case Choose(requested) =>
      if requested.None? then w
      else if MayRequest(w.lock.agent, requested.value) then w.(lock := w.lock.(target := requested.value))
      else w.(closed := true)
    case Launch(offered, current) =>
      Enforce(w.(live := true,
                 lock := w.lock.(offered := offered, current := if current.Some? then current else w.lock.current)),
              w.lock.target, ForLaunch)
    case Answer(e, ok) =>
      if ok then w.(under := w.under - {e} + {e.(answered := true)}) else Failed(w, e)
    case OptionAnswer(e, mode) => Back(w.(now := w.now + 1), e, Note(mode, w.now))
    case Notification(e) => Back(w, e, w.lock.seen[|w.lock.seen| - 1])
    case Unconfirmed(e) => Failed(w, e)
    case Report(mode) =>
      var n := Note(mode, w.now);
      var w' := w.(lock := Noted(w.lock, n), now := w.now + 1);
      if Reverts(w.lock, n) then Enforce(w', w.lock.agent.askMode, ForRevert) else w'
    case SetMode(mode) =>
      if Allowed(w.lock, mode) && Offers(w.lock, mode) then Enforce(w, mode, ForChoice(w.lock.target)) else w
    case Resume => Enforce(w, w.lock.target, ForResume)
    case Exit => w.(live := false)
    case Close => w.(closed := true)
    case Record => w.(recorded := w.lock.current)
    case Restart(agent) => w.(lock := Made(agent, w.recorded), live := false, closed := false, under := {})
  }

  function First(agent: Agent): (w: World) {
    World(Made(agent, None), false, false, {}, None, 0, 0, {}, {})
  }

  ghost predicate Legal(w: World, steps: seq<Step>)
    decreases |steps|
  {
    steps == [] || (Enabled(w, steps[0]) && Legal(Apply(w, steps[0]), steps[1..]))
  }

  ghost function Run(w: World, steps: seq<Step>): (r: World)
    requires Legal(w, steps)
    decreases |steps|
  {
    if steps == [] then w else Run(Apply(w, steps[0]), steps[1..])
  }

  // ----- what every run keeps -----

  /** The agent may be put in that mode: it asks before every step, or the owner opted in. */
  predicate Safe(agent: Agent, mode: string) {
    agent.allowUnsafe || mode in agent.asking
  }

  predicate UnderSafe(agent: Agent, e: Enforcement) {
    Safe(agent, e.mode) && (e.why.ForChoice? ==> Safe(agent, e.why.previous))
  }

  ghost predicate ModesSafe(w: World) {
    && Sound(w.lock.agent)
    && Safe(w.lock.agent, w.lock.target)
    && (forall e :: e in w.under ==> UnderSafe(w.lock.agent, e))
    && (forall a :: a in w.asked ==> Safe(a.agent, a.mode))
  }

  /** What is read back was reported since the request, and what a launch enforced was asked for. */
  ghost predicate ReadsFresh(w: World) {
    && w.reset <= w.now
    && (forall n :: n in w.lock.seen ==> w.reset <= n.at < w.now)
    && (forall e :: e in w.under ==>
        e.start <= w.reset && e.start < w.now && Asked(w.lock.agent, e.mode, e.start) in w.asked)
    && (forall o :: o in w.launched ==>
        o.report.mode == o.mode && o.start <= o.report.at && Asked(o.agent, o.mode, o.start) in w.asked)
  }

  lemma EnforceKeeps(w: World, mode: string, why: Reason)
    requires ModesSafe(w) && ReadsFresh(w) && Safe(w.lock.agent, mode)
             && (why.ForChoice? ==> Safe(w.lock.agent, why.previous))
    ensures ModesSafe(Enforce(w, mode, why)) && ReadsFresh(Enforce(w, mode, why))
  {
    hide Sound, Safe, Offers;
  }

  lemma FailedKeeps(w: World, e: Enforcement)
    requires ModesSafe(w) && ReadsFresh(w) && e in w.under
    ensures ModesSafe(Failed(w, e)) && ReadsFresh(Failed(w, e))
  {
    hide Sound, Safe, Offers;
  }

  lemma BackKeeps(w: World, e: Enforcement, n: Note)
    requires ModesSafe(w) && ReadsFresh(w) && e in w.under && e.start <= n.at
    ensures ModesSafe(Back(w, e, n)) && ReadsFresh(Back(w, e, n))
  {
    hide Sound, Safe, Failed;
    FailedKeeps(w, e);
  }

  lemma AllowedIsSafe(l: Lock, mode: string)
    requires Sound(l.agent)
    ensures Allowed(l, mode) || MayRequest(l.agent, mode) ==> Safe(l.agent, mode)
    ensures Safe(l.agent, l.agent.askMode)
    ensures forall recorded :: Safe(l.agent, Made(l.agent, recorded).target)
  {
  }

  lemma StepKeeps(w: World, s: Step)
    requires ModesSafe(w) && ReadsFresh(w) && Enabled(w, s)
    ensures ModesSafe(Apply(w, s)) && ReadsFresh(Apply(w, s))
  {
    hide Sound, Safe, Offers, Allowed, MayRequest, Enforce, Failed, Back, Made;
    match s
    case Choose(requested) =>
      if requested.Some? {
        AllowedIsSafe(w.lock, requested.value);
      }
    case Launch(offered, current) =>
      EnforceKeeps(w.(live := true,
                   lock := w.lock.(offered := offered, current := if current.Some? then current else w.lock.current)),
                   w.lock.target, ForLaunch);
    case Answer(e, ok) => FailedKeeps(w, e);
    case OptionAnswer(e, mode) => BackKeeps(w.(now := w.now + 1), e, Note(mode, w.now));
    case Notification(e) => BackKeeps(w, e, w.lock.seen[|w.lock.seen| - 1]);
    case Unconfirmed(e) => FailedKeeps(w, e);
    case Report(mode) =>
      var n := Note(mode, w.now);
      AllowedIsSafe(w.lock, mode);
      EnforceKeeps(w.(lock := Noted(w.lock, n), now := w.now + 1), w.lock.agent.askMode, ForRevert);
    case SetMode(mode) =>
      AllowedIsSafe(w.lock, mode);
      if Allowed(w.lock, mode) {
        EnforceKeeps(w, mode, ForChoice(w.lock.target));
      }
    case Resume => EnforceKeeps(w, w.lock.target, ForResume);
    case Exit =>
    case Close =>
    case Record =>
    case Restart(agent) => RestartKeeps(w, agent);
  }

  lemma RestartKeeps(w: World, agent: Agent)
    requires ModesSafe(w) && ReadsFresh(w) && Sound(agent)
    ensures ModesSafe(Apply(w, Restart(agent))) && ReadsFresh(Apply(w, Restart(agent)))
  {
    AllowedIsSafe(Made(agent, None), agent.askMode);
  }

  lemma {:induction false} RunKeeps(w: World, steps: seq<Step>)
    requires ModesSafe(w) && ReadsFresh(w) && Legal(w, steps)
    ensures ModesSafe(Run(w, steps)) && ReadsFresh(Run(w, steps))
    decreases |steps|
  {
    hide ModesSafe, ReadsFresh, Apply, Enabled;
    if steps != [] {
      StepKeeps(w, steps[0]);
      RunKeeps(Apply(w, steps[0]), steps[1..]);
    }
  }

  /**
   In every run of a session whose agents come from accepted configurations: every mode asked of an adapter
   is one that asks before every step, unless the owner opted in for that agent; and every launch that
   succeeded read back, in a report made after it asked, the very mode it had asked for.
   */
  lemma OnlyAskingModes(agent: Agent, steps: seq<Step>)
    requires Sound(agent) && Legal(First(agent), steps)
    ensures var w := Run(First(agent), steps);
            && (forall a :: a in w.asked ==> a.agent.allowUnsafe || a.mode in a.agent.asking)
            && (forall o :: o in w.launched ==>
                  o.report.mode == o.mode && o.start <= o.report.at && Asked(o.agent, o.mode, o.start) in w.asked
                  && (o.agent.allowUnsafe || o.mode in o.agent.asking))
  {
    RunKeeps(First(agent), steps);
    var w := Run(First(agent), steps);
    forall o | o in w.launched ensures o.agent.allowUnsafe || o.mode in o.agent.asking {
      assert Asked(o.agent, o.mode, o.start) in w.asked;
    }
  }
}

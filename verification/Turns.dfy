/**
 When a prompt counts as handled (connector/src/session.ts, `runTurn` and `handledOnceRecorded`): the
 record of its turn goes to a file that is written in the background, and the command cursor may pass
 the prompt only once a restart would find that record.  The file is a `Snapshot.World`.
 */
module Turns {
  import opened Wrappers
  import S = Snapshot
  import L = Ledger

  type Sid = string

  datatype Prompt = Prompt(cmd: L.Command, sid: Sid)

  /** A turn record; `startedAt` is the clock of the moment the prompt went to the agent. */
  datatype Rec = Rec(prompt: Prompt, startedAt: nat, waiting: bool, permission: bool)

  /** The turns a store holds: what its turns file is a snapshot of. */
  type Records = map<Sid, Rec>

  function Marked(turns: Records, sid: Sid, waiting: bool, permission: bool): (r: Records) {
    if sid !in turns then turns
    else turns[sid := turns[sid].(waiting := waiting, permission := waiting && (permission || turns[sid].permission))]
  }

  /** `SessionStore`, the part that keeps the turns. */
  class SessionStore {
    var turns: Records
    const turnsOut: S.SnapshotFile<Records>

    constructor (found: Records)
      ensures turns == found && fresh(turnsOut) && turnsOut.View() == S.Core(found, 0, 0, 0, None, [])
    {
      turns := found;
      turnsOut := new S.SnapshotFile(found);
    }

    method BeginTurn(t: Rec)
      modifies this, turnsOut
      ensures turns == old(turns)[t.prompt.sid := t]
      ensures turnsOut.View() == S.Saved(old(turnsOut.View()), turns)
    {
      turns := turns[t.prompt.sid := t];
      turnsOut.Save(turns);
    }

    method MarkWaiting(sid: Sid, waiting: bool, permission: bool)
      modifies this, turnsOut
      ensures turns == Marked(old(turns), sid, waiting, permission)
      ensures turnsOut.View() ==
              if turns == old(turns) then old(turnsOut.View()) else S.Saved(old(turnsOut.View()), turns)
    {
      if sid !in turns {
        return;
      }
      var t := turns[sid];
      var next := t.(waiting := waiting, permission := waiting && (permission || t.permission));
      if t.waiting == next.waiting && t.permission == next.permission {
        assert turns[sid := next] == turns;
        return;
      }
      turns := turns[sid := next];
      assert turns[sid] != old(turns)[sid];
      turnsOut.Save(turns);
    }

    method EndTurn(sid: Sid)
      modifies this, turnsOut
      ensures turns == old(turns) - {sid}
      ensures turnsOut.View() ==
              if sid in old(turns) then S.Saved(old(turnsOut.View()), turns) else old(turnsOut.View())
    {
      if sid !in turns {
        return;
      }
      turns := turns - {sid};
      turnsOut.Save(turns);
    }
  }

  /** What one round of `handledOnceRecorded` comes to. */
  datatype Verdict = HandOn | GiveUp | AskLater

  function Round(turns: Records, sid: Sid, startedAt: nat, flushed: bool, closed: bool, stopping: bool): (v: Verdict) {
    if flushed || closed || sid !in turns || turns[sid].startedAt != startedAt then HandOn
    else if stopping then GiveUp
    else AskLater
  }

  /** The body of the loop in `handledOnceRecorded`, after its await. */
  method OneRound(store: SessionStore, sid: Sid, startedAt: nat, flushed: bool, closed: bool, stopping: bool)
    returns (v: Verdict)
    modifies store, store.turnsOut
    ensures v == Round(old(store.turns), sid, startedAt, flushed, closed, stopping)
    ensures store.turns == if v == GiveUp then old(store.turns) - {sid} else old(store.turns)
    ensures store.turnsOut.View() ==
            if v == GiveUp then S.Saved(old(store.turnsOut.View()), store.turns) else old(store.turnsOut.View())
  {
    if flushed {
      return HandOn;
    }
    if closed || sid !in store.turns || store.turns[sid].startedAt != startedAt {
      return HandOn;
    }
    if stopping {
      store.EndTurn(sid);
      return GiveUp;
    }
    return AskLater;
  }

  // ----- the hand-off as a machine: every await is a point where anything else may happen -----

  datatype Wait = Asking(id: nat) | Sleeping

  /**
   One `handledOnceRecorded` under way.  `at` is the number of the save that held its record first;
   `resumed` when the turn carries on one that the run before left: nothing is told to the ledger then.
   */
  datatype Handler = Handler(prompt: Prompt, startedAt: nat, at: nat, resumed: bool, wait: Wait)

  /**
   `sent` are the prompts that ever reached an agent, `over` those the phone was told about by name (`turn_end`, or
   `command_rejected` for a continuation), `closed` the sessions closed, `handled` the prompts counted as handled.
   Records older than `base` were read at the start.
   */
  datatype State = State(file: S.World<Records>, handlers: set<Handler>, sent: set<Prompt>, over: set<Prompt>,
                         closed: set<Sid>, handled: set<Prompt>, stopping: bool, clock: nat, base: nat)

  datatype Step =
    | Disk(s: S.Step<Records>)                     // a write lands or comes back
    | Send(p: Prompt, resumed: bool, id: nat)      // the prompt goes to the agent and its turn is recorded
    | Flushed(h: Handler)                          // everything saved so far is on disk
    | NotFlushed(h: Handler)                       // a second passed, or a write failed
    | AskAgain(h: Handler, id: nat)
    | TurnEnd(sid: Sid)
    | Withdraw(sid: Sid, told: bool)               // a continuation that never reaches its agent: its record goes
    | Overrun(sid: Sid)                            // while stopping: the next prompt takes the stopped turn's record
    | Mark(sid: Sid, waiting: bool, permission: bool)
    | Close(sid: Sid)
    | Stop

  function Now(t: State): (r: Records) {
    t.file.core.latest
  }

  /** The session has a turn that an earlier run left and that has not reached an agent again. */
  predicate LeftOver(t: State, sid: Sid) {
    sid in Now(t) && Now(t)[sid].startedAt < t.base
  }

  predicate Enabled(t: State, s: Step) {
    match s
    case Disk(f) => (f.LandStep? || f.FinishStep?) && S.Enabled(t.file, f)
    case Send(p, resumed, id) =>
      && id !in t.file.asked
      && p.sid !in t.closed
      && (forall q :: q in t.sent && q.cmd == p.cmd ==> q == p)
      && (if resumed then p.sid in Now(t) && Now(t)[p.sid].prompt == p && Now(t)[p.sid].startedAt < t.base
          else p.sid !in Now(t))
    case Flushed(h) => h in t.handlers && h.wait.Asking? && h.wait.id in t.file.answers && t.file.answers[h.wait.id]
    case NotFlushed(h) => h in t.handlers && h.wait.Asking?
    case AskAgain(h, id) => h in t.handlers && h.wait.Sleeping? && id !in t.file.asked
    case TurnEnd(sid) => sid in Now(t) && (t.stopping ==> LeftOver(t, sid))  // a refused continuation ends even then
    case Withdraw(sid, _) => LeftOver(t, sid)
    case Overrun(sid) => t.stopping && sid in Now(t) && !LeftOver(t, sid)
    case Mark(_, _, _) => true
    case Close(_) => true
    case Stop => true
  }

  function Save(t: State, turns: Records): (r: State) {
    t.(file := S.Apply(t.file, S.SaveStep(turns)))
  }

  predicate Superseded(t: State, h: Handler) {
    h.prompt.sid in t.closed || h.prompt.sid !in Now(t) || Now(t)[h.prompt.sid].startedAt != h.startedAt
  }

  /** The handler has done its work: the prompt counts as handled, unless its command was an earlier run's. */
  predicate Hands(t: State, s: Step) {
    s.Flushed? || (s.NotFlushed? && Superseded(t, s.h))
  }

  /** The connector stops before the record landed: the record is dropped and the prompt left unhandled. */
  predicate GivesUp(t: State, s: Step) {
    s.NotFlushed? && !Superseded(t, s.h) && t.stopping
  }

  /** The machine's two rounds come to what the loop's body comes to. */
  lemma RoundsAgree(t: State, s: Step)
    requires Enabled(t, s) && (s.Flushed? || s.NotFlushed?)
    ensures var v := Round(Now(t), s.h.prompt.sid, s.h.startedAt, s.Flushed?, s.h.prompt.sid in t.closed, t.stopping);
            && (v == HandOn <==> Hands(t, s)) && (v == GiveUp <==> GivesUp(t, s))
            && Now(Apply(t, s)) == if v == GiveUp then Now(t) - {s.h.prompt.sid} else Now(t)
  {
  }

  function Count(t: State, h: Handler): (r: State) {
    t.(handlers := t.handlers - {h}, handled := if h.resumed then t.handled else t.handled + {h.prompt})
  }

  function Apply(t: State, s: Step): (r: State)
    requires Enabled(t, s)
  {
    match s
    case Disk(f) => t.(file := S.Apply(t.file, f))
    case Send(p, resumed, id) =>
      var saved := Save(t, Now(t)[p.sid := Rec(p, t.clock, false, false)]);
      saved.(file := S.Apply(saved.file, S.AskStep(id)), sent := t.sent + {p}, clock := t.clock + 1,
      handlers := t.handlers + {Handler(p, t.clock, saved.file.core.saved, resumed, Asking(id))})
    case Flushed(h) => Count(t, h)
    case NotFlushed(h) =>
      if Superseded(t, h) then Count(t, h)
      else if t.stopping then Save(t, Now(t) - {h.prompt.sid}).(handlers := t.handlers - {h})
      else t.(handlers := t.handlers - {h} + {h.(wait := Sleeping)})
    case AskAgain(h, id) =>
      t.(file := S.Apply(t.file, S.AskStep(id)), handlers := t.handlers - {h} + {h.(wait := Asking(id))})
    case TurnEnd(sid) => Save(t, Now(t) - {sid}).(over := t.over + {Now(t)[sid].prompt})
    case Withdraw(sid, told) =>
      Save(t, Now(t) - {sid}).(over := if told then t.over + {Now(t)[sid].prompt} else t.over)
    case Overrun(sid) => Save(t, Now(t) - {sid})
    case Mark(sid, waiting, permission) =>
      var turns := Marked(Now(t), sid, waiting, permission);
      if turns == Now(t) then t else Save(t, turns)
    case Close(sid) => t.(closed := t.closed + {sid})
    case Stop => t.(stopping := true)
  }

  /** A new run: the store reads what reached the disk. */
  function Restarted(t: State): (r: State) {
    t.(file := S.Opened(t.file.file), handlers := {}, stopping := false, base := t.clock)
  }

  function Empty(): (t: State) {
    State(S.Opened(map[]), {}, {}, {}, {}, {}, false, 0, 0)
  }

  // ----- what every step keeps -----

  /** These records answer for the prompt: they hold its turn, or its turn has ended, or its session is closed. */
  predicate Accounts(t: State, p: Prompt, turns: Records) {
    (p.sid in turns && turns[p.sid].prompt == p) || p in t.over || p.sid in t.closed
  }

  /** Everything saved from number `from` on accounts for the prompt. */
  predicate AccountsFrom(t: State, p: Prompt, from: nat) {
    forall k :: from <= k < |t.file.history| ==> Accounts(t, p, t.file.history[k])
  }

  predicate HandlerFits(t: State, h: Handler) {
    && t.base <= h.startedAt < t.clock
    && h.at <= t.file.core.saved
    && (!h.resumed ==> AccountsFrom(t, h.prompt, h.at))
    && StillCurrent(t, h)
    && (h.wait.Asking? ==> h.wait.id in t.file.asked && h.at <= t.file.asked[h.wait.id])
  }

  /** Every record is of a prompt of its session that reached an agent, at some moment before now. */
  predicate Dated(turns: Records, clock: nat, sent: set<Prompt>) {
    forall sid :: sid in turns ==>
      turns[sid].startedAt < clock && turns[sid].prompt in sent && turns[sid].prompt.sid == sid
  }

  ghost predicate Fits(t: State) {
    && S.Inv(t.file)
    && (forall h :: h in t.handlers ==> HandlerFits(t, h))
    && (forall g, h :: g in t.handlers && h in t.handlers && g.startedAt == h.startedAt ==> g == h)
    && (forall k :: 0 <= k < |t.file.history| ==> Dated(t.file.history[k], t.clock, t.sent))
    && t.base <= t.clock
  }

  /** Whatever reached the disk, or will reach it, accounts for every prompt that counts as handled. */
  ghost predicate Safe(t: State) {
    forall p :: p in t.handled ==> AccountsFrom(t, p, t.file.fileNo)
  }

  /** The step drops the record of a turn and tells nobody. */
  predicate DropsSilently(t: State, s: Step) {
    || GivesUp(t, s)
    || (((s.Withdraw? && !s.told) || s.Overrun?) && s.sid in Now(t) && s.sid !in t.closed)
  }

  /** The prompt of that turn. */
  function DroppedBy(t: State, s: Step): (p: Prompt)
    requires DropsSilently(t, s)
  {
    if s.Withdraw? || s.Overrun? then Now(t)[s.sid].prompt else s.h.prompt
  }

  /** The session's record is the one the handler waits for. */
  predicate Owns(t: State, h: Handler, sid: Sid) {
    h.prompt.sid == sid && sid in Now(t) && Now(t)[sid].startedAt == h.startedAt
  }

  /** The record goes from under a handler, which will count its prompt as handled. */
  predicate Strands(t: State, s: Step) {
    s.Overrun? && exists h :: h in t.handlers && !h.resumed && Owns(t, h, s.sid)
  }

  /** The step silently drops the record of a prompt that counts as handled, or will. */
  predicate Careless(t: State, s: Step) {
    DropsSilently(t, s) && DroppedBy(t, s) !in t.over && (DroppedBy(t, s) in t.handled || Strands(t, s))
  }

  /** What a step does to the saves: nothing, or one more. */
  predicate Extends(t: State, t': State) {
    && t.over <= t'.over && t.closed <= t'.closed
    && (t'.file.history == t.file.history || t'.file.history == t.file.history + [Now(t')])
  }

  lemma SaveIs(f: S.World<Records>, turns: Records)
    requires S.Inv(f)
    ensures var g := S.Apply(f, S.SaveStep(turns));
            && S.Inv(g) && g.core.latest == turns && g.history == f.history + [turns]
            && g.fileNo == f.fileNo && g.asked == f.asked && g.core.saved == f.core.saved + 1
  {
    S.StepKeepsInv(f, S.SaveStep(turns));
  }

  lemma AskIs(f: S.World<Records>, id: nat)
    requires S.Inv(f) && id !in f.asked
    ensures var g := S.Apply(f, S.AskStep(id));
            && S.Inv(g) && g.core.latest == f.core.latest && g.history == f.history
            && g.fileNo == f.fileNo && g.asked == f.asked[id := f.core.saved] && g.core.saved == f.core.saved
  {
    S.StepKeepsInv(f, S.AskStep(id));
  }

  lemma DiskIs(f: S.World<Records>, s: S.Step<Records>)
    requires S.Inv(f) && S.Enabled(f, s) && (s.LandStep? || s.FinishStep?)
    ensures var g := S.Apply(f, s);
            && S.Inv(g) && g.core.latest == f.core.latest && g.history == f.history
            && f.fileNo <= g.fileNo && g.asked == f.asked && g.core.saved == f.core.saved
  {
    S.StepKeepsInv(f, s);
  }

  /** What the store holds after a step. */
  function NowAfter(t: State, s: Step): (r: Records)
    requires Enabled(t, s)
  {
    match s
    case Send(p, _, _) => Now(t)[p.sid := Rec(p, t.clock, false, false)]
    case NotFlushed(h) => if GivesUp(t, s) then Now(t) - {h.prompt.sid} else Now(t)
    case TurnEnd(sid) => Now(t) - {sid}
    case Withdraw(sid, _) => Now(t) - {sid}
    case Overrun(sid) => Now(t) - {sid}
    case Mark(sid, waiting, permission) => Marked(Now(t), sid, waiting, permission)
    case _ => Now(t)
  }

  /** What a step leaves of the saves, the answers asked for and the file. */
  ghost predicate Follows(t: State, t': State) {
    && Extends(t, t') && S.Inv(t'.file)
    && t.file.fileNo <= t'.file.fileNo && t.file.core.saved <= t'.file.core.saved
    && (forall id :: id in t.file.asked ==> id in t'.file.asked && t'.file.asked[id] == t.file.asked[id])
  }

  lemma RemovalExtends(t: State, s: Step)
    requires Fits(t) && Enabled(t, s) && (s.TurnEnd? || s.Withdraw? || s.Overrun?)
    ensures Follows(t, Apply(t, s)) && Now(Apply(t, s)) == Now(t) - {s.sid}
  {
    hide Accounts, AccountsFrom, HandlerFits, S.Inv, S.Apply, Dated, LeftOver;
    SaveIs(t.file, Now(t) - {s.sid});
  }

  lemma StepExtends(t: State, s: Step)
    requires Fits(t) && Enabled(t, s)
    ensures Follows(t, Apply(t, s)) && Now(Apply(t, s)) == NowAfter(t, s)
  {
    hide Accounts, AccountsFrom, HandlerFits, S.Inv, S.Apply, Marked, Dated, Superseded, LeftOver, S.Enabled;
    match s
    case Disk(f) => DiskIs(t.file, f);
    case Send(p, resumed, id) =>
      var turns := Now(t)[p.sid := Rec(p, t.clock, false, false)];
      SaveIs(t.file, turns);
      AskIs(Save(t, turns).file, id);
    case Flushed(h) =>
    case NotFlushed(h) => SaveIs(t.file, Now(t) - {h.prompt.sid});
    case AskAgain(h, id) => AskIs(t.file, id);
    case TurnEnd(sid) => RemovalExtends(t, s);
    case Withdraw(sid, _) => RemovalExtends(t, s);
    case Overrun(sid) => RemovalExtends(t, s);
    case Mark(sid, waiting, permission) => SaveIs(t.file, Marked(Now(t), sid, waiting, permission));
    case Close(_) =>
    case Stop =>
  }

  lemma Grows(t: State, t': State, p: Prompt, from: nat)
    requires Extends(t, t') && AccountsFrom(t, p, from)
    requires t'.file.history == t.file.history || Accounts(t', p, Now(t'))
    ensures AccountsFrom(t', p, from)
  {
  }

  /** The saves of `t` account for the prompt from `from` on, so what the store holds now does. */
  lemma AccountsNow(t: State, p: Prompt, from: nat)
    requires S.Inv(t.file) && AccountsFrom(t, p, from) && from <= t.file.core.saved
    ensures Accounts(t, p, Now(t))
  {
    assert t.file.history[t.file.core.saved] == Now(t);
  }

  /** A step keeps a prompt accounted for, unless it silently drops the prompt's own record. */
  lemma StepAccounts(t: State, s: Step, p: Prompt, from: nat)
    requires Fits(t) && Enabled(t, s) && AccountsFrom(t, p, from) && from <= t.file.core.saved
    requires DropsSilently(t, s) ==> DroppedBy(t, s) != p || p in t.over
    ensures AccountsFrom(Apply(t, s), p, from)
  {
    StepExtends(t, s);
    AccountsNow(t, p, from);
    if GivesUp(t, s) {
      assert HandlerFits(t, s.h);
    }
    Grows(t, Apply(t, s), p, from) by {
      hide AccountsFrom, HandlerFits, S.Inv;
    }
  }

  /** A record that is not the one a handler waits for is of another prompt, unless the handler's turn has ended. */
  lemma OthersRecord(t: State, sid: Sid, h: Handler)
    requires Fits(t) && h in t.handlers && !h.resumed && sid in Now(t) && sid !in t.closed && !Owns(t, h, sid)
    ensures Now(t)[sid].prompt != h.prompt || h.prompt in t.over
  {
    NowDated(t);
    assert HandlerFits(t, h);
  }

  /** Only its own handler can give a record up. */
  lemma OthersKeepTheirs(t: State, h: Handler, g: Handler)
    requires Fits(t) && h in t.handlers && g in t.handlers && g != h && !g.resumed && !Superseded(t, h)
    ensures g.prompt.sid != h.prompt.sid || g.prompt in t.over
  {
    assert HandlerFits(t, h) && HandlerFits(t, g);
  }

  /** The record a handler waits for stays the current one, unless the turn ends or the session closes. */
  predicate StillCurrent(t: State, h: Handler) {
    var mine := h.prompt.sid in Now(t) && Now(t)[h.prompt.sid].startedAt == h.startedAt;
    && (mine ==> Now(t)[h.prompt.sid].prompt == h.prompt)
    && (mine || h.resumed || h.prompt in t.over || h.prompt.sid in t.closed)
  }

  /** The step takes no record from under a handler. */
  predicate Stays(t: State, s: Step) {
    Strands(t, s) ==> s.sid in Now(t) && (Now(t)[s.sid].prompt in t.over || s.sid in t.closed)
  }

  lemma CarefulStays(t: State, s: Step)
    requires Enabled(t, s) && !Careless(t, s)
    ensures Stays(t, s)
  {
  }

  lemma KeepsCurrent(t: State, s: Step, h: Handler)
    requires Fits(t) && Enabled(t, s) && h in t.handlers && HandlerFits(t, h)
    requires GivesUp(t, s) && !h.resumed ==> s.h.prompt.sid != h.prompt.sid || h.prompt in t.over
    requires Stays(t, s)
    ensures StillCurrent(Apply(t, s), h)
  {
    hide AccountsFrom, Accounts, S.Inv, S.Apply;
    StepExtends(t, s);
  }

  lemma HandlersAccounts(t: State, s: Step, h: Handler)
    requires Fits(t) && Enabled(t, s) && Stays(t, s) && h in t.handlers && h in Apply(t, s).handlers && !h.resumed
    ensures AccountsFrom(Apply(t, s), h.prompt, h.at)
  {
    assert HandlerFits(t, h);
    hide AccountsFrom, Accounts, S.Inv, S.Apply;
    if GivesUp(t, s) {
      OthersKeepTheirs(t, s.h, h);
    } else if DropsSilently(t, s) && !Owns(t, h, s.sid) {
      OthersRecord(t, s.sid, h);
    }
    StepAccounts(t, s, h.prompt, h.at);
  }

  lemma KeepsHandler(t: State, s: Step, h: Handler)
    requires Fits(t) && Enabled(t, s) && Stays(t, s) && h in t.handlers && h in Apply(t, s).handlers
    ensures HandlerFits(Apply(t, s), h)
  {
    assert HandlerFits(t, h);
    if !h.resumed {
      HandlersAccounts(t, s, h);
      if GivesUp(t, s) {
        OthersKeepTheirs(t, s.h, h);
      }
    }
    hide AccountsFrom, Accounts, S.Inv, S.Apply;
    StepExtends(t, s);
    KeepsCurrent(t, s, h);
  }

  lemma NewHandler(t: State, p: Prompt, resumed: bool, id: nat)
    requires Fits(t) && Enabled(t, Send(p, resumed, id))
    ensures HandlerFits(Apply(t, Send(p, resumed, id)), Handler(p, t.clock, t.file.core.saved + 1, resumed, Asking(id)))
  {
    hide S.Apply;
    var turns := Now(t)[p.sid := Rec(p, t.clock, false, false)];
    SaveIs(t.file, turns);
    AskIs(Save(t, turns).file, id);
  }

  lemma StepFits(t: State, s: Step)
    requires Fits(t) && Enabled(t, s) && Stays(t, s)
    ensures Fits(Apply(t, s))
  {
    hide AccountsFrom, Accounts, S.Inv, S.Apply;
    var t' := Apply(t, s);
    StepExtends(t, s);
    StepTimes(t, s);
    forall h | h in t'.handlers ensures HandlerFits(t', h) {
      if h in t.handlers {
        KeepsHandler(t, s, h);
      } else {
        match s
        case Send(p, resumed, id) =>
          SaveIs(t.file, NowAfter(t, s));
          NewHandler(t, p, resumed, id);
        case NotFlushed(g) => Rearmed(t, s, g, h);
        case AskAgain(g, id) => Rearmed(t, s, g, h);
      }
    }
  }

  lemma NowDated(t: State)
    requires Fits(t)
    ensures Dated(Now(t), t.clock, t.sent)
  {
    hide Dated, AccountsFrom, HandlerFits;
    assert Now(t) == t.file.history[t.file.core.saved];
  }

  /** Every turn and every handler has its own moment. */
  lemma StepTimes(t: State, s: Step)
    requires Fits(t) && Enabled(t, s)
    ensures var t' := Apply(t, s);
            && (forall g, h :: g in t'.handlers && h in t'.handlers && g.startedAt == h.startedAt ==> g == h)
            && (forall k :: 0 <= k < |t'.file.history| ==> Dated(t'.file.history[k], t'.clock, t'.sent))
            && t'.base <= t'.clock
  {
    hide AccountsFrom, Accounts, S.Inv, S.Apply;
    StepExtends(t, s);
    NowDated(t);
  }

  lemma Rearmed(t: State, s: Step, g: Handler, h: Handler)
    requires Fits(t) && Enabled(t, s) && g in t.handlers && h == g.(wait := h.wait) && h in Apply(t, s).handlers
    requires (s == NotFlushed(g) && h.wait == Sleeping) || (s.AskAgain? && s.h == g && h.wait == Asking(s.id))
    ensures HandlerFits(Apply(t, s), h)
  {
    assert HandlerFits(t, g);
    if !g.resumed {
      StepAccounts(t, s, g.prompt, g.at);
    }
    StepExtends(t, s);
  }

  // ----- safety -----

  lemma LaterAccounts(t: State, p: Prompt, from: nat, from': nat)
    requires AccountsFrom(t, p, from) && from <= from'
    ensures AccountsFrom(t, p, from')
  {
  }

  lemma StaysAccounted(t: State, s: Step, p: Prompt)
    requires Fits(t) && Safe(t) && Enabled(t, s) && !Careless(t, s) && p in t.handled
    ensures AccountsFrom(Apply(t, s), p, Apply(t, s).file.fileNo)
  {
    hide AccountsFrom, S.Apply;
    assert t.file.fileNo <= t.file.core.saved;
    AccountsNow(t, p, t.file.fileNo);
    if GivesUp(t, s) {
      assert HandlerFits(t, s.h);
    }
    StepAccounts(t, s, p, t.file.fileNo);
    StepExtends(t, s);
    LaterAccounts(Apply(t, s), p, t.file.fileNo, Apply(t, s).file.fileNo);
  }

  /** A handler that hands its prompt on has it accounted for on disk. */
  lemma HandedAccounted(t: State, s: Step)
    requires Fits(t) && Enabled(t, s) && Hands(t, s) && !s.h.resumed
    ensures AccountsFrom(Apply(t, s), s.h.prompt, t.file.fileNo)
  {
    assert HandlerFits(t, s.h);
    StepAccounts(t, s, s.h.prompt, s.h.at);
    if s.Flushed? {
      assert t.file.asked[s.h.wait.id] <= t.file.fileNo;
    }
  }

  lemma StepSafe(t: State, s: Step)
    requires Fits(t) && Safe(t) && Enabled(t, s) && !Careless(t, s)
    ensures Safe(Apply(t, s))
  {
    hide Accounts, AccountsFrom, S.Apply, S.Inv, HandlerFits;
    var t' := Apply(t, s);
    StepExtends(t, s);
    forall p | p in t'.handled ensures AccountsFrom(t', p, t'.file.fileNo) {
      if p in t.handled {
        StaysAccounted(t, s, p);
      } else {
        HandedAccounted(t, s);
      }
    }
  }

  lemma RestartKeeps(t: State)
    requires Fits(t)
    ensures Fits(Restarted(t))
    ensures Safe(t) ==> Safe(Restarted(t))
  {
  }
}

/**
 Lines that landed, over every run: a session's first event is complete only with its meta file, and a line whose
 meta file failed can be rewritten away before it is tried again (connector/src/outbox.ts).  `Notes` records what
 happened to the lines beside the machine, which does not look at it.
 */
module OutboxLines {
  import opened OutboxQueue
  import opened OutboxShed
  import opened OutboxLoad
  import opened OutboxRun
  import opened OutboxSafety

  /**
   `lined` are the events whose line ever landed; `failed` those whose meta file failed since it did; `overtaken`
   those of them whose session's log was rewritten while they still waited to be tried again.
   */
  datatype Notes = Notes(lined: set<Event>, failed: set<Event>, overtaken: set<Event>)

  const BLANK := Notes({}, {}, {})

  ghost function Noted(w: World, n: Notes, s: Step): (r: Notes) {
    if s.LandStep? && w.phase.Appending? then
      Notes(n.lined + {w.phase.ev}, n.failed - {w.phase.ev}, n.overtaken - {w.phase.ev})
    else if s.FailStep? && w.phase.FirstMeta? then n.(failed := n.failed + {w.phase.ev})
    else if s.LandStep? && w.phase.RewritingLog? then
      n.(overtaken := n.overtaken + set e | e in n.failed && e in w.mem.unwritten && e.sid == w.phase.sid)
    else n
  }

  ghost function NotesOf(w: World, n: Notes, steps: seq<Step>): (r: Notes)
    requires Legal(w, steps)
    decreases |steps|
  {
    if steps == [] then n else NotesOf(Apply(w, steps[0]), Noted(w, n, steps[0]), steps[1..])
  }

  // ----- what every step keeps -----

  /** The lines landed of events that are neither complete nor given up nor overtaken. */
  ghost function Waiting(w: World, n: Notes): (r: set<Event>) {
    n.lined - w.done - w.shed - w.refused - w.stored - n.overtaken
  }

  /** An overtaken event has no line, and no write under way will give it one but its own. */
  ghost predicate OvertakenGone(overtaken: set<Event>, logged: set<Event>, done: set<Event>, p: Phase) {
    && overtaken !! logged && overtaken !! done
    && (p.FirstMeta? ==> p.ev !in overtaken)
    && (p.RewritingLog? ==> forall e :: e in p.lines ==> e in done)
  }

  /** A waiting event still has its line, will be tried again, and no write under way empties its log. */
  ghost predicate WaitingKept(waiting: set<Event>, unwritten: set<Event>, logged: set<Event>, failed: set<Event>,
                              p: Phase)
  {
    && waiting <= unwritten
    && waiting <= logged
    && (forall e :: e in waiting ==> e in failed || (p.FirstMeta? && p.ev == e))
    && (forall e :: e in waiting ==> !Empties(p, e.sid))
  }

  /** Only first events wait for a meta file. */
  ghost predicate OnlyFirst(n: Notes, p: Phase) {
    && n.overtaken <= n.failed
    && (forall e :: e in n.failed ==> e.num == 1)
    && (p.FirstMeta? ==> p.ev.num == 1)
  }

  ghost predicate LinesInv(w: World, n: Notes) {
    && OvertakenGone(n.overtaken, Logged(w.disk), w.done, w.phase)
    && WaitingKept(Waiting(w, n), w.mem.unwritten, Logged(w.disk), n.failed, w.phase)
    && OnlyFirst(n, w.phase)
  }

  /** What the steps below use of the outbox's own invariant. */
  lemma Basics(w: World)
    requires Inv(w)
    ensures OwnLogs(w.disk) && (w.phase.RewritingLog? ==> forall e :: e in w.phase.lines ==> e.sid == w.phase.sid)
    ensures Free(w.mem) <= w.done && w.done !! w.mem.unwritten
    ensures InFlight(w.phase) <= w.done + w.shed + w.mem.unwritten
    ensures forall u :: u in w.mem.unwritten ==> u in w.mem.queue
  {
    hide Numbers, InOrder, Covered, GapQuiet, PhaseCovers, Acks, Posted, Closed, BatchesClosed, Owing, BytesCover;
    UnwrittenQueued(w.mem.queue, w.mem.unwritten, w.handed);
  }

  lemma LineLands(w: World, n: Notes, ev: Event)
    requires Inv(w) && LinesInv(w, n) && w.phase == Appending(ev)
    ensures LinesInv(Landed(w), Noted(w, n, LandStep))
  {
    hide Inv, Logged;
    Basics(w);
    var lines := Log(w.disk, ev.sid) + [ev];
    forall e | e in lines ensures e.sid == ev.sid {
      if e != ev {
        assert e in Log(w.disk, ev.sid);
      }
    }
    LoggedAfterPut(w.disk, ev.sid, lines);
    forall e ensures e in Logged(Landed(w).disk) <==> e in Logged(w.disk) || e == ev {
      LoggedAt(w.disk, e);
    }
    assert ev in InFlight(w.phase);
  }

  lemma LogLands(w: World, n: Notes, sid: Sid, lines: seq<Event>)
    requires Inv(w) && LinesInv(w, n) && w.phase == RewritingLog(sid, lines)
    ensures LinesInv(Landed(w), Noted(w, n, LandStep))
  {
    hide Inv, Logged;
    Basics(w);
    LoggedAfterPut(w.disk, sid, lines);
  }

  lemma OtherLands(w: World, n: Notes)
    requires Inv(w) && LinesInv(w, n) && !w.phase.Idle? && !w.phase.Appending? && !w.phase.RewritingLog?
    ensures LinesInv(Landed(w), Noted(w, n, LandStep))
  {
    hide Inv, Logged;
    Basics(w);
    match w.phase
    case FirstMeta(ev, content) =>
      SameLogs(w.disk, w.disk.(metas := w.disk.metas[ev.sid := content]));
      assert ev in InFlight(w.phase);
    case RewritingMeta(sid, content) =>
      SameLogs(w.disk, w.disk.(metas := w.disk.metas[sid := content]));
      MineSpec(w.mem.queue, sid, w.mem.unwritten);
      assert forall e :: e in Mine(w.mem.queue, sid, w.mem.unwritten) ==> e in Free(w.mem);
    case WritingMeta(sid, content) => SameLogs(w.disk, w.disk.(metas := w.disk.metas[sid := content]));
    case ClearingMeta(sid, content) => SameLogs(w.disk, w.disk.(metas := w.disk.metas[sid := content]));
    case Clearing(sid) => LoggedAfterPut(w.disk, sid, []);
    case Removing(sid) => RemovedLogged(w.disk, sid);
    case ForgettingMeta(sid, content) => SameLogs(w.disk, w.disk.(metas := w.disk.metas[sid := content]));
  }

  lemma SameLogs(d: Disk, d': Disk)
    requires d'.logs == d.logs
    ensures Logged(d') == Logged(d)
  {
  }

  lemma StartLines(w: World, n: Notes)
    requires Inv(w) && LinesInv(w, n) && w.phase.Idle? && w.mem.ops != []
    ensures LinesInv(Apply(w, StartStep), n)
  {
    hide Inv, Logged, Free;
    Basics(w);
    var p := Started(w.mem, w.mem.ops[0]);
    if p.ClearingMeta? || p.Removing? {
      assert !Has(w.mem.queue, p.sid);
    }
  }

  lemma AppendLines(w: World, n: Notes, ev: Event)
    requires Inv(w) && LinesInv(w, n)
    ensures LinesInv(w.(mem := Append(w.mem, ev), shed := w.shed + ShedBy(w.mem, ev)), n)
  {
    hide Inv, Logged, Append, ShedBy;
    AppendEffect(w.mem, ev);
  }

  lemma CrashLines(w: World, n: Notes, m: Mem)
    requires Inv(w) && LinesInv(w, n) && LoadedFrom(w.disk, m)
    ensures LinesInv(Restarted(w, m), n)
  {
    hide Numbers, InOrder, Covered, GapQuiet, PhaseCovers, Acks, Posted, Closed, BatchesClosed, Owing, BytesCover,
         Logged;
    UnwrittenNumbers(w);
    forall e | e in Waiting(w, n) ensures e in m.queue {
      LoggedAt(w.disk, e);
      OwedIsUnacked(w, e);
    }
    forall e | e in m.queue ensures e in Logged(w.disk) {
      LoggedAt(w.disk, e);
    }
  }

  lemma StepLines(w: World, n: Notes, s: Step)
    requires Inv(w) && LinesInv(w, n) && Enabled(w, s)
    ensures LinesInv(Apply(w, s), Noted(w, n, s))
  {
    hide Inv, Logged, Load, LoadedFrom, Append, ShedBy, Landed, Started, Ingested, Pending;
    match s
    case Tick(_) =>
    case AppendStep(sid, kind, size, data) => AppendLines(w, n, NextEvent(w.mem, sid, kind, w.clock, size, data));
    case CloseStep(sid) => MarkClosedUnwritten(w.mem, sid);
    case StartStep => StartLines(w, n);
    case LandStep =>
      match w.phase {
        case Appending(ev) => LineLands(w, n, ev);
        case RewritingLog(sid, lines) => LogLands(w, n, sid, lines);
        case _ => OtherLands(w, n);
      }
    case FailStep =>
    case RetryStep(_) =>
    case PostStep(_) =>
    case DeliverStep(batch, refuses) => IngestedSpec(w.stored, batch, refuses);
    case AckStep(acked) => AckUnwritten(w.mem, acked);
    case RefusalStep(ev) => DropEffect(w.mem, ev.sid, ev.num);
    case CrashStep(names) =>
      Basics(w);
      LoadIsLoaded(w.disk, names, w.mem.cap);
      CrashLines(w, n, Load(w.disk, names, w.mem.cap));
  }

  lemma MarkClosedUnwritten(m: Mem, sid: Sid)
    ensures MarkClosed(m, sid).unwritten == m.unwritten
  {
  }

  lemma AckUnwritten(m: Mem, acked: map<Sid, int>)
    ensures Ack(m, acked).unwritten == m.unwritten
  {
    var m' := m.(queue := AckKeep(m.queue, acked), bytes := AckBytes(m.queue, acked, m.bytes));
    SettleAllEffect(m', Touched(m.queue, acked, {}), acked);
  }

  lemma {:induction false} RunLines(w: World, n: Notes, steps: seq<Step>)
    requires Inv(w) && LinesInv(w, n) && Legal(w, steps) && Careful(w, steps)
    ensures LinesInv(Run(w, steps), NotesOf(w, n, steps))
    decreases |steps|
  {
    hide Inv, LinesInv, Apply, Enabled, Noted;
    if steps != [] {
      StepKeeps(w, steps[0]);
      StepLines(w, n, steps[0]);
      RunLines(Apply(w, steps[0]), Noted(w, n, steps[0]), steps[1..]);
    }
  }

  // ----- results -----

  lemma WaitingIsRebuilt(w: World, n: Notes, m: Mem, e: Event)
    requires Inv(w) && LinesInv(w, n) && LoadedFrom(w.disk, m) && e in Waiting(w, n)
    ensures e in m.queue
  {
    hide Numbers, InOrder, Covered, GapQuiet, PhaseCovers, Acks, Posted, Closed, BatchesClosed, Owing, BytesCover,
         Logged;
    UnwrittenNumbers(w);
    LoggedAt(w.disk, e);
    OwedIsUnacked(w, e);
  }

  lemma OwedIsRebuilt(w: World, m: Mem, e: Event)
    requires Inv(w) && LoadedFrom(w.disk, m) && e in Live(w) - w.stored
    ensures e in m.queue
  {
    hide Numbers, InOrder, Covered, GapQuiet, PhaseCovers, Acks, Posted, Closed, BatchesClosed, BytesCover, Logged;
    DoneNumbers(w);
    LoggedAt(w.disk, e);
    OwedIsUnacked(w, e);
  }

  lemma FreshLines(cap: nat, clock: int)
    ensures LinesInv(Fresh(cap, clock), BLANK)
  {
  }

  /**
   Exactly which landed lines a restart does not bring back: at every moment of a run, an event whose line landed and
   that was neither shed nor refused nor stored is missing from the queue `load` rebuilds if and only if it was
   overtaken.  That happens to a session's first event only, when its meta file failed after its line had landed and
   the session's log was rewritten before the event was tried again.  Every other landed event is rebuilt.
   */
  lemma LandedIsLostExactlyWhenOvertaken(cap: nat, clock: int, steps: seq<Step>, names: seq<Sid>, e: Event)
    requires Legal(Fresh(cap, clock), steps) && Careful(Fresh(cap, clock), steps)
    requires Listing(Run(Fresh(cap, clock), steps).disk, names)
    requires var w := Run(Fresh(cap, clock), steps);
             e in NotesOf(Fresh(cap, clock), BLANK, steps).lined && e !in w.shed && e !in w.refused && e !in w.stored
    ensures var w := Run(Fresh(cap, clock), steps);
            var n := NotesOf(Fresh(cap, clock), BLANK, steps);
            && (e !in Load(w.disk, names, cap).queue <==> e in n.overtaken)
            && (e in n.overtaken ==> e.num == 1 && e in n.failed && e !in w.done)
  {
    hide Inv, Load, LoadedFrom, Logged, WaitingKept, Run, Legal, Careful;
    FreshInv(cap, clock);
    FreshLines(cap, clock);
    RunKeeps(Fresh(cap, clock), steps);
    RunLines(Fresh(cap, clock), BLANK, steps);
    var w := Run(Fresh(cap, clock), steps);
    var n := NotesOf(Fresh(cap, clock), BLANK, steps);
    var m := Load(w.disk, names, cap);
    Basics(w);
    LoadIsLoaded(w.disk, names, cap);
    if e in n.overtaken {
      LoggedAt(w.disk, e);
      NotLoggedNotLoaded(w.disk, m, e);
    } else if e in w.done {
      OwedIsRebuilt(w, m, e);
    } else {
      WaitingIsRebuilt(w, n, m, e);
    }
  }

  lemma NotLoggedNotLoaded(d: Disk, m: Mem, e: Event)
    requires LoadedFrom(d, m) && e !in Log(d, e.sid)
    ensures e !in m.queue
  {
  }

  /** While the process lives, an overtaken event is still waiting to be tried again. */
  lemma OvertakenWaits(w: World, n: Notes, s: Step, e: Event)
    requires Inv(w) && LinesInv(w, n) && Enabled(w, s) && !s.CrashStep?
    requires e in n.overtaken && e in w.mem.unwritten && e in Noted(w, n, s).overtaken && e !in Apply(w, s).shed
    ensures e in Apply(w, s).mem.unwritten
  {
    hide Inv, Logged, Load, Append, ShedBy, Ingested, Pending;
    match s
    case AppendStep(sid, kind, size, data) => AppendEffect(w.mem, NextEvent(w.mem, sid, kind, w.clock, size, data));
    case CloseStep(sid) => MarkClosedUnwritten(w.mem, sid);
    case AckStep(acked) => AckUnwritten(w.mem, acked);
    case RefusalStep(ev) => DropEffect(w.mem, ev.sid, ev.num);
    case _ =>
  }
}

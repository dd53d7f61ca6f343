/**
 The outbox with its disk and its server, as one state machine (connector/src/outbox.ts, the
 `DiskQueue` of connector/src/statefile.ts and the sender of connector/src/connector.ts).

 The disk queue runs one operation at a time; an operation is one or two writes, and `Phase`
 says which write is under way and what it will put on disk (its content is fixed when it
 starts).  Anything else may happen while a write is under way: events are appended and shed,
 batches posted, acknowledgements taken, and the process may die and come back.  A write that
 lands is one step together with what the operation does next, because what happens in memory
 between the two does not look at the disk.
 */
module OutboxRun {
  import opened OutboxQueue
  import opened OutboxShed
  import opened OutboxLoad

  datatype Phase =
    | Idle
    | Appending(ev: Event)                      // persist: the event's line
    | FirstMeta(ev: Event, content: Meta)       // persist: the meta file, for a session's first event
    | RewritingMeta(sid: Sid, content: Meta)    // rewriteNow: the meta file first
    | RewritingLog(sid: Sid, lines: seq<Event>) // rewriteNow: then the log
    | WritingMeta(sid: Sid, content: Meta)      // settle, forget: only the meta file
    | ClearingMeta(sid: Sid, content: Meta)     // settle with nothing queued: the meta file first
    | Clearing(sid: Sid)                        // then the log is emptied
    | Removing(sid: Sid)                        // forget: the log goes first
    | ForgettingMeta(sid: Sid, content: Meta)   // then the meta file is written

  /**
   `retry` are the events whose write failed and waits for its timer, `stored` what the server
   holds, `sent` every batch ever posted (a request may arrive late, or twice).  The rest records
   the run: `handed` every event `pending` gave out, `done` every event whose write completed (or
   that a new process found on disk), `shed` and `refused` the events given up, `gap` the
   sessions whose log was removed and which have had neither a meta file nor a line written since.
   */
  datatype World = World(mem: Mem, phase: Phase, retry: set<Event>, disk: Disk, stored: set<Event>,
                         sent: set<seq<Event>>, clock: int, handed: set<Event>, done: set<Event>,
                         shed: set<Event>, refused: set<Event>, gap: set<Sid>)

  datatype Step =
    | Tick(now: int)
    | AppendStep(sid: Sid, kind: string, size: nat, data: string)
    | CloseStep(sid: Sid)
    | StartStep
    | LandStep
    | FailStep
    | RetryStep(ev: Event)
    | PostStep(max: nat)
    | DeliverStep(batch: seq<Event>, refuses: set<Event>)
    | AckStep(acked: map<Sid, int>)
    | RefusalStep(ev: Event)
    | CrashStep(names: seq<Sid>)

  /** The server holds an event of the session with at least this number. */
  ghost predicate Reached(stored: set<Event>, sid: Sid, n: int) {
    n <= 0 || exists s :: s in stored && s.sid == sid && n <= s.num
  }

  predicate SameKey(a: Event, b: Event) {
    a.sid == b.sid && a.num == b.num
  }

  ghost predicate Enabled(w: World, s: Step) {
    match s
    case Tick(now) => w.clock <= now
    case AppendStep(_, _, _, _) => true
    case CloseStep(_) => true
    case StartStep => w.phase.Idle? && w.mem.ops != []
    case LandStep => !w.phase.Idle?
    case FailStep => !w.phase.Idle?
    case RetryStep(ev) => ev in w.retry
    case PostStep(_) => true
    case DeliverStep(batch, refuses) => batch in w.sent && forall e :: e in refuses ==> e in batch
    case AckStep(acked) => forall sid :: sid in acked ==> Reached(w.stored, sid, acked[sid])
    case RefusalStep(ev) => ev in w.refused
    case CrashStep(names) => Listing(w.disk, names)
  }

  /** What an operation does when its turn comes: up to its first write, or nothing. */
  function Started(m: Mem, op: Op): (p: Phase) {
    match op
    case Persist(ev) => if ev in m.unwritten then Appending(ev) else Idle
    case Rewrite(sid) => RewritingMeta(sid, MetaOf(m, sid))
    case Settling(sid, rewrite) =>
      if rewrite then RewritingMeta(sid, MetaOf(m, sid))
      else if Has(m.queue, sid) then WritingMeta(sid, MetaOf(m, sid))
      else ClearingMeta(sid, MetaOf(m, sid))
    case Forgetting(sid) =>
      if Has(m.queue, sid) then WritingMeta(sid, MetaOf(m, sid)) else Removing(sid)
  }

  /** The end of `persist`: the event's write is complete, if it is still wanted. */
  function Completed(w: World, ev: Event): (r: World) {
    w.(phase := Idle, mem := w.mem.(unwritten := w.mem.unwritten - {ev}),
    done := if ev in w.mem.unwritten then w.done + {ev} else w.done)
  }

  function PutMeta(w: World, sid: Sid, content: Meta): (r: World) {
    w.(disk := w.disk.(metas := w.disk.metas[sid := content]), gap := w.gap - {sid})
  }

  function PutLog(w: World, sid: Sid, lines: seq<Event>): (r: World) {
    w.(disk := w.disk.(logs := w.disk.logs[sid := lines]))
  }

  /** The write under way lands, and its operation goes on to the next one or ends. */
  function Landed(w: World): (r: World)
    requires !w.phase.Idle?
  {
    match w.phase
    case Appending(ev) =>
      var w' := PutLog(w, ev.sid, Log(w.disk, ev.sid) + [ev]).(gap := w.gap - {ev.sid});
      if ev.num == 1 then w'.(phase := FirstMeta(ev, MetaOf(w.mem, ev.sid))) else Completed(w', ev)
    case FirstMeta(ev, content) => Completed(PutMeta(w, ev.sid, content), ev)
    case RewritingMeta(sid, content) =>
      PutMeta(w, sid, content).(phase := RewritingLog(sid, Mine(w.mem.queue, sid, w.mem.unwritten)))
    case RewritingLog(sid, lines) => PutLog(w, sid, lines).(phase := Idle)
    case WritingMeta(sid, content) => PutMeta(w, sid, content).(phase := Idle)
    case ClearingMeta(sid, content) => PutMeta(w, sid, content).(phase := Clearing(sid))
    case Clearing(sid) => PutLog(w, sid, []).(phase := Idle)
    case Removing(sid) =>
      w.(disk := w.disk.(logs := w.disk.logs - {sid}), gap := w.gap + {sid},
      phase := if sid in w.mem.meta then ForgettingMeta(sid, MetaOf(w.mem, sid)) else Idle)
    case ForgettingMeta(sid, content) => PutMeta(w, sid, content).(phase := Idle)
  }

  function Failed(w: World): (r: World) {
    match w.phase
    case Appending(ev) => w.(phase := Idle, retry := w.retry + {ev})
    case FirstMeta(ev, _) => w.(phase := Idle, retry := w.retry + {ev})
    case _ => w.(phase := Idle)
  }

  /** The server stores what it does not refuse, keeping the first event of each number. */
  function Ingested(stored: set<Event>, batch: seq<Event>, refuses: set<Event>): (r: set<Event>)
    decreases |batch|
  {
    if batch == [] then stored
    else
      var e := batch[0];
      var s := if e in refuses || (exists x :: x in stored && SameKey(x, e)) then stored else stored + {e};
      Ingested(s, batch[1..], refuses)
  }

  /** The events a scan of the session drops. */
  function Gone(m: Mem, sid: Sid): (r: set<Event>) {
    set e | e in ShedScan(m.queue, sid, BytesOf(m, sid), m.cap).dropped
  }

  /** The events an append sheds. */
  function ShedBy(m: Mem, ev: Event): (r: set<Event>) {
    var e1 := Enqueued(m, ev);
    if BytesOf(e1, ev.sid) > m.cap then Gone(e1, ev.sid) else {}
  }

  /** A new process with memory `m`: what the old one was doing is gone, what it finds on disk is written. */
  function Restarted(w: World, m: Mem): (r: World) {
    w.(mem := m, phase := Idle, retry := {}, done := w.done + set e | e in m.queue)
  }

  function Apply(w: World, s: Step): (r: World)
    requires Enabled(w, s)
  {
    match s
    case Tick(now) => w.(clock := now)
    case AppendStep(sid, kind, size, data) =>
      var ev := NextEvent(w.mem, sid, kind, w.clock, size, data);
      w.(mem := Append(w.mem, ev), shed := w.shed + ShedBy(w.mem, ev))
    case CloseStep(sid) => w.(mem := MarkClosed(w.mem, sid))
    case StartStep => w.(phase := Started(w.mem, w.mem.ops[0]), mem := w.mem.(ops := w.mem.ops[1..]))
    case LandStep => Landed(w)
    case FailStep => Failed(w)
    case RetryStep(ev) => w.(retry := w.retry - {ev}, mem := w.mem.(ops := w.mem.ops + [Persist(ev)]))
    case PostStep(max) =>
      var batch := Pending(w.mem.queue, w.mem.unwritten, max);
      w.(sent := w.sent + {batch}, handed := w.handed + set e | e in batch)
    case DeliverStep(batch, refuses) =>
      w.(stored := Ingested(w.stored, batch, refuses), refused := w.refused + refuses)
    case AckStep(acked) => w.(mem := Ack(w.mem, acked))
    case RefusalStep(ev) => w.(mem := Drop(w.mem, ev.sid, ev.num))
    case CrashStep(names) => Restarted(w, Load(w.disk, names, w.mem.cap))
  }

  /** A first start: an empty directory, a server that has seen nothing. */
  function Fresh(cap: nat, clock: int): (w: World) {
    World(Mem(cap, [], map[], map[], {}, {}, []), Idle, {}, Disk(map[], map[]), {}, {}, clock, {}, {}, {}, {}, {})
  }

  /** The process does not die between `forget`'s two writes (its log removed, its meta file not yet written). */
  ghost predicate OutsideGap(w: World, s: Step) {
    s.CrashStep? ==> w.gap == {}
  }

  ghost predicate Legal(w: World, steps: seq<Step>)
    decreases |steps|
  {
    steps == [] || (Enabled(w, steps[0]) && Legal(Apply(w, steps[0]), steps[1..]))
  }

  ghost predicate Careful(w: World, steps: seq<Step>)
    requires Legal(w, steps)
    decreases |steps|
  {
    steps == [] || (OutsideGap(w, steps[0]) && Careful(Apply(w, steps[0]), steps[1..]))
  }

  ghost function Run(w: World, steps: seq<Step>): (r: World)
    requires Legal(w, steps)
    decreases |steps|
  {
    if steps == [] then w else Run(Apply(w, steps[0]), steps[1..])
  }
}

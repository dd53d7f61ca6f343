/**
 What every run of the outbox keeps, crashes and restarts included.  Each part of the invariant
 is stated on the sets of events it is about.
 */
module OutboxSafety {
  import opened OutboxQueue
  import opened OutboxShed
  import opened OutboxLoad
  import opened OutboxRun

  ghost function Queued(m: Mem): (r: set<Event>) {
    set e | e in m.queue
  }

  /** In the queue with their lines written: free to be handed out. */
  ghost function Free(m: Mem): (r: set<Event>) {
    Queued(m) - m.unwritten
  }

  ghost function Logged(d: Disk): (r: set<Event>) {
    set s, e | s in d.logs && e in d.logs[s] :: e
  }

  /** The events the write under way is about to put into a log. */
  ghost function InFlight(p: Phase): (r: set<Event>) {
    match p
    case Appending(ev) => {ev}
    case FirstMeta(ev, _) => {ev}
    case RewritingLog(_, lines) => set e | e in lines
    case _ => {}
  }

  /** Every event that may still be posted, or was, or had its line written. */
  ghost function Known(w: World): (r: set<Event>) {
    Queued(w.mem) + Logged(w.disk) + w.done + InFlight(w.phase)
  }

  /** Written and not given up: neither shed nor refused by the server. */
  ghost function Live(w: World): (r: set<Event>) {
    w.done - w.shed - w.refused
  }

  // ----- numbers -----

  ghost predicate Numbers(known: set<Event>, meta: map<Sid, Meta>, clock: int) {
    && (forall e :: e in known ==> 1 <= e.num <= MetaAt(meta, e.sid).lastSeq && e.ts <= clock)
    && (forall a, b :: a in known && b in known && SameKey(a, b) ==> a == b)
    && (forall a, b :: a in known && b in known && a.sid == b.sid && a.num < b.num ==> a.ts <= b.ts)
  }

  ghost predicate Files(d: Disk, p: Phase) {
    && OwnLogs(d)
    && (p.RewritingLog? ==> forall e :: e in p.lines ==> e.sid == p.sid)
    && (p.FirstMeta? ==> p.ev in Log(d, p.ev.sid))
  }

  /** The queue is in order, and an event not written yet is in it once, after all its session has handed out. */
  ghost predicate InOrder(q: seq<Event>, unwritten: set<Event>, handed: set<Event>) {
    && Ordered(q)
    && (forall u :: u in unwritten ==> multiset(q)[u] == 1)
    && (forall u, h :: u in unwritten && h in handed && h.sid == u.sid ==> h.num < u.num)
  }

  /** Outside the gap, no number ever written is above what a restart goes on from. */
  ghost predicate Covered(written: set<Event>, gap: set<Sid>, d: Disk) {
    forall e :: e in written && e.sid !in gap ==> e.num <= HighWater(d, e.sid)
  }

  ghost predicate Removed(gap: set<Sid>, p: Phase, sid: Sid) {
    sid in gap || (p.Removing? && p.sid == sid)
  }

  /**
   A session whose log is being removed, or was, has no event free to be handed out, and what it
   has queued since is numbered above everything it ever wrote.
   */
  ghost predicate GapQuiet(free: set<Event>, unwritten: set<Event>, done: set<Event>, gap: set<Sid>, p: Phase) {
    && (forall e :: e in free ==> !Removed(gap, p, e.sid))
    && (forall u, e :: u in unwritten && e in done && e.sid == u.sid && Removed(gap, p, u.sid) ==> e.num < u.num)
  }

  /** What a meta file says covers every number its session ever wrote. */
  ghost predicate CoversMeta(written: set<Event>, sid: Sid, content: Meta, acked: nat) {
    && content.acked <= acked
    && forall e :: e in written && e.sid == sid ==> e.num <= content.lastSeq
  }

  ghost predicate PhaseCovers(p: Phase, written: set<Event>, gap: set<Sid>, d: Disk, meta: map<Sid, Meta>) {
    match p
    case Idle => true
    case Appending(ev) => ev.sid in gap ==> forall h :: h in written && h.sid == ev.sid ==> h.num < ev.num
    case FirstMeta(ev, content) => CoversMeta(written, ev.sid, content, MetaAt(meta, ev.sid).acked)
    case RewritingMeta(sid, content) => CoversMeta(written, sid, content, MetaAt(meta, sid).acked)
    case RewritingLog(sid, _) => CoversMeta(written, sid, MetaFile(d, sid), MetaAt(meta, sid).acked)
    case WritingMeta(sid, content) => CoversMeta(written, sid, content, MetaAt(meta, sid).acked)
    case ClearingMeta(sid, content) => CoversMeta(written, sid, content, MetaAt(meta, sid).acked)
    case Clearing(sid) => CoversMeta(written, sid, MetaFile(d, sid), MetaAt(meta, sid).acked)
    case Removing(sid) => true
    case ForgettingMeta(sid, content) => CoversMeta(written, sid, content, MetaAt(meta, sid).acked)
  }

  // ----- nothing lost -----

  ghost predicate Acks(stored: set<Event>, meta: map<Sid, Meta>, d: Disk) {
    && (forall sid :: Reached(stored, sid, MetaAt(meta, sid).acked))
    && (forall sid :: MetaAt(d.metas, sid).acked <= MetaAt(meta, sid).acked)
  }

  /** The server never holds an event while one of the same session with a smaller number, still wanted, is missing. */
  ghost predicate Closed(stored: set<Event>, live: set<Event>) {
    forall s, e :: s in stored && e in live && e.sid == s.sid && e.num <= s.num ==> e in stored
  }

  /** Nor does a batch skip one. */
  ghost predicate BatchesClosed(sent: set<seq<Event>>, stored: set<Event>, live: set<Event>) {
    forall b, x, e :: b in sent && x in b && e in live && e.sid == x.sid && e.num < x.num ==> e in b || e in stored
  }

  ghost predicate Posted(stored: set<Event>, refused: set<Event>, sent: set<seq<Event>>, handed: set<Event>) {
    && stored <= handed
    && refused <= handed
    && (forall b, e :: b in sent && e in b ==> e in handed)
  }

  /** The sessions a write under way leaves with an empty log, or none. */
  ghost predicate Empties(p: Phase, sid: Sid) {
    (p.ClearingMeta? || p.Clearing? || p.Removing?) && p.sid == sid
  }

  /** What the server is still owed is queued, free to be posted, and on disk whatever the write under way does. */
  ghost predicate Owing(owed: set<Event>, free: set<Event>, logged: set<Event>, p: Phase) {
    && owed <= free
    && owed <= logged
    && (p.RewritingLog? ==> forall e :: e in owed && e.sid == p.sid ==> e in p.lines)
    && (forall e :: e in owed ==> !Empties(p, e.sid))
  }

  ghost predicate Records(w: World) {
    && Free(w.mem) <= w.done
    && w.handed <= w.done
    && w.done !! w.mem.unwritten
    && Logged(w.disk) + InFlight(w.phase) <= w.done + w.shed + w.mem.unwritten
  }

  ghost predicate Inv(w: World) {
    && Numbers(Known(w), w.mem.meta, w.clock)
    && Files(w.disk, w.phase)
    && InOrder(w.mem.queue, w.mem.unwritten, w.handed)
    && Covered(w.done, w.gap, w.disk)
    && GapQuiet(Free(w.mem), w.mem.unwritten, w.done, w.gap, w.phase)
    && PhaseCovers(w.phase, w.done, w.gap, w.disk, w.mem.meta)
    && Acks(w.stored, w.mem.meta, w.disk)
    && Posted(w.stored, w.refused, w.sent, w.handed)
    && Closed(w.stored, Live(w))
    && BatchesClosed(w.sent, w.stored, Live(w))
    && Owing(Live(w) - w.stored, Free(w.mem), Logged(w.disk), w.phase)
    && Records(w)
    && BytesCover(w.mem)
  }

  // ----- the steps that change little -----

  lemma NumbersShrink(known: set<Event>, fewer: set<Event>, meta: map<Sid, Meta>, clock: int, later: int)
    requires Numbers(known, meta, clock) && fewer <= known && clock <= later
    ensures Numbers(fewer, meta, later)
  {
  }

  lemma TickKeeps(w: World, now: int)
    requires Inv(w) && w.clock <= now
    ensures Inv(w.(clock := now))
  {
    hide Numbers, Files, InOrder, Covered, GapQuiet, PhaseCovers, Acks, Posted, Closed, BatchesClosed, Owing,
         BytesCover;
    assert Known(w.(clock := now)) == Known(w);
    NumbersShrink(Known(w), Known(w), w.mem.meta, w.clock, now);
  }

  lemma QuietShrinks(free: set<Event>, unwritten: set<Event>, done: set<Event>, gap: set<Sid>, p: Phase,
                     free': set<Event>, unwritten': set<Event>, gap': set<Sid>, p': Phase)
    requires GapQuiet(free, unwritten, done, gap, p)
    requires free' <= free && unwritten' <= unwritten
    requires forall sid :: Removed(gap', p', sid) ==> Removed(gap, p, sid)
    ensures GapQuiet(free', unwritten', done, gap', p')
  {
  }

  lemma OwingIdle(owed: set<Event>, free: set<Event>, logged: set<Event>, p: Phase)
    requires Owing(owed, free, logged, p)
    ensures Owing(owed, free, logged, Idle)
  {
  }

  /** Giving up the write under way keeps everything. */
  lemma IdleKeeps(w: World, retry: set<Event>)
    requires Inv(w)
    ensures Inv(w.(phase := Idle, retry := retry))
  {
    hide Numbers, InOrder, Covered, Acks, Posted, Closed, BatchesClosed, Owing, BytesCover, GapQuiet;
    var w' := w.(phase := Idle, retry := retry);
    QuietShrinks(Free(w.mem), w.mem.unwritten, w.done, w.gap, w.phase, Free(w.mem), w.mem.unwritten, w.gap, Idle);
    NumbersShrink(Known(w), Known(w'), w.mem.meta, w.clock, w.clock);
    OwingIdle(Live(w) - w.stored, Free(w.mem), Logged(w.disk), w.phase);
  }

  lemma OpsKeep(w: World, retry: set<Event>, ops: seq<Op>)
    requires Inv(w)
    ensures Inv(w.(retry := retry, mem := w.mem.(ops := ops)))
  {
    hide Numbers, Files, InOrder, Covered, GapQuiet, PhaseCovers, Acks, Posted, Closed, BatchesClosed, Owing;
    var w' := w.(retry := retry, mem := w.mem.(ops := ops));
    assert Queued(w'.mem) == Queued(w.mem);
    assert forall sid :: BytesOf(w'.mem, sid) == BytesOf(w.mem, sid);
  }

  // ----- an operation reaching the head of the disk queue -----

  lemma StartCovers(m: Mem, op: Op, done: set<Event>, gap: set<Sid>, d: Disk)
    requires forall e :: e in done ==> e.num <= MetaAt(m.meta, e.sid).lastSeq
    requires GapQuiet(Free(m), m.unwritten, done, gap, Idle)
    ensures PhaseCovers(Started(m, op), done, gap, d, m.meta)
  {
  }

  lemma StartOwes(m: Mem, op: Op, owed: set<Event>, logged: set<Event>, done: set<Event>, gap: set<Sid>)
    requires Owing(owed, Free(m), logged, Idle)
    requires GapQuiet(Free(m), m.unwritten, done, gap, Idle)
    requires forall u :: u in m.unwritten ==> u in m.queue
    ensures Owing(owed, Free(m), logged, Started(m, op))
    ensures GapQuiet(Free(m), m.unwritten, done, gap, Started(m, op))
  {
    var p := Started(m, op);
    if p.ClearingMeta? || p.Removing? {
      assert !Has(m.queue, p.sid);
      assert forall e :: e in Free(m) ==> e in m.queue;
    }
  }

  lemma UnwrittenQueued(q: seq<Event>, unwritten: set<Event>, handed: set<Event>)
    requires InOrder(q, unwritten, handed)
    ensures forall u :: u in unwritten ==> u in q
  {
    forall u | u in unwritten ensures u in q {
      assert u in multiset(q);
    }
  }

  lemma DoneNumbers(w: World)
    requires Numbers(Known(w), w.mem.meta, w.clock)
    ensures forall e :: e in w.done ==> 1 <= e.num <= MetaAt(w.mem.meta, e.sid).lastSeq
  {
  }

  lemma StartKeeps(w: World, op: Op)
    requires Inv(w) && w.phase.Idle?
    ensures Inv(w.(phase := Started(w.mem, op)))
  {
    hide Numbers, InOrder, Covered, GapQuiet, PhaseCovers, Acks, Posted, Closed, BatchesClosed, Owing, BytesCover;
    var w' := w.(phase := Started(w.mem, op));
    UnwrittenQueued(w.mem.queue, w.mem.unwritten, w.handed);
    assert Known(w') == Known(w);
    DoneNumbers(w);
    StartCovers(w.mem, op, w.done, w.gap, w.disk);
    StartOwes(w.mem, op, Live(w) - w.stored, Logged(w.disk), w.done, w.gap);
  }

  // ----- writes that land -----

  lemma LoggedAt(d: Disk, e: Event)
    requires OwnLogs(d)
    ensures e in Logged(d) <==> e in Log(d, e.sid)
  {
    if e in Logged(d) {
      var s :| s in d.logs && e in d.logs[s];
      assert e in Log(d, s);
    }
  }

  lemma LoggedAfterPut(d: Disk, sid: Sid, lines: seq<Event>)
    requires OwnLogs(d) && forall e :: e in lines ==> e.sid == sid
    ensures var d' := d.(logs := d.logs[sid := lines]);
            && OwnLogs(d')
            && (forall e :: e in Logged(d') <==> if e.sid == sid then e in lines else e in Logged(d))
  {
    var d' := d.(logs := d.logs[sid := lines]);
    forall s, e | e in Log(d', s) ensures e.sid == s {
      if s != sid {
        assert e in Log(d, s);
      }
    }
    forall e ensures e in Logged(d') <==> if e.sid == sid then e in lines else e in Logged(d) {
      LoggedAt(d, e);
      LoggedAt(d', e);
    }
  }

  /** A longer log never lowers a mark, and covers its new line. */
  lemma HighWaterAfterLine(d: Disk, ev: Event)
    ensures var d' := d.(logs := d.logs[ev.sid := Log(d, ev.sid) + [ev]]);
            && HighWater(d', ev.sid) >= ev.num
            && (forall s :: HighWater(d', s) >= HighWater(d, s))
  {
    var d' := d.(logs := d.logs[ev.sid := Log(d, ev.sid) + [ev]]);
    assert ev in Log(d', ev.sid);
    forall s ensures HighWater(d', s) >= HighWater(d, s) {
      assert MetaFile(d', s) == MetaFile(d, s);
      assert forall e :: e in Log(d, s) ==> e in Log(d', s);
    }
  }

  lemma LineCovered(w: World, ev: Event)
    requires Covered(w.done, w.gap, w.disk)
    requires w.phase == Appending(ev) && PhaseCovers(w.phase, w.done, w.gap, w.disk, w.mem.meta)
    ensures Covered(w.done, w.gap - {ev.sid}, w.disk.(logs := w.disk.logs[ev.sid := Log(w.disk, ev.sid) + [ev]]))
  {
    HighWaterAfterLine(w.disk, ev);
  }

  lemma LineKeeps(w: World, ev: Event)
    requires Inv(w) && w.phase == Appending(ev)
    ensures Inv(PutLog(w, ev.sid, Log(w.disk, ev.sid) + [ev]).(gap := w.gap - {ev.sid}))
    ensures ev in Log(PutLog(w, ev.sid, Log(w.disk, ev.sid) + [ev]).disk, ev.sid)
  {
    hide Numbers, InOrder, Covered, Acks, Posted, Closed, BatchesClosed, BytesCover, GapQuiet;
    var lines := Log(w.disk, ev.sid) + [ev];
    var w' := PutLog(w, ev.sid, lines).(gap := w.gap - {ev.sid});
    QuietShrinks(Free(w.mem), w.mem.unwritten, w.done, w.gap, w.phase, Free(w.mem), w.mem.unwritten, w'.gap, w'.phase);
    LineCovered(w, ev);
    forall e | e in lines ensures e.sid == ev.sid {
      if e != ev {
        assert e in Log(w.disk, ev.sid);
      }
    }
    LoggedAfterPut(w.disk, ev.sid, lines);
    forall e ensures e in Logged(w'.disk) <==> e in Logged(w.disk) || e == ev {
      LoggedAt(w.disk, e);
    }
    assert Known(w') == Known(w);
    AcksSameMetas(w.stored, w.mem.meta, w.disk, w'.disk);
  }

  lemma AcksSameMetas(stored: set<Event>, meta: map<Sid, Meta>, d: Disk, d': Disk)
    requires Acks(stored, meta, d) && d'.metas == d.metas
    ensures Acks(stored, meta, d')
  {
  }

  /**
   A number that has just been written is above all its session has handed out, so no batch or stored event skips it.
   */
  lemma NewestSkipsNothing(w: World, ev: Event)
    requires InOrder(w.mem.queue, w.mem.unwritten, w.handed) && ev in w.mem.unwritten
    requires Posted(w.stored, w.refused, w.sent, w.handed)
    requires Closed(w.stored, Live(w)) && BatchesClosed(w.sent, w.stored, Live(w))
    ensures Closed(w.stored, Live(w) + {ev}) && BatchesClosed(w.sent, w.stored, Live(w) + {ev})
  {
  }

  lemma FewerLive(sent: set<seq<Event>>, stored: set<Event>, live: set<Event>, fewer: set<Event>)
    requires Closed(stored, live) && BatchesClosed(sent, stored, live) && fewer <= live
    ensures Closed(stored, fewer) && BatchesClosed(sent, stored, fewer)
  {
  }

  lemma InOrderShrinks(q: seq<Event>, unwritten: set<Event>, fewer: set<Event>, handed: set<Event>)
    requires InOrder(q, unwritten, handed) && fewer <= unwritten
    ensures InOrder(q, fewer, handed)
  {
  }

  lemma CoveredGrows(written: set<Event>, ev: Event, gap: set<Sid>, d: Disk)
    requires Covered(written, gap, d) && ev in Log(d, ev.sid)
    ensures Covered(written + {ev}, gap, d)
  {
  }

  lemma SameBytes(m: Mem, m': Mem)
    requires BytesCover(m) && m'.queue == m.queue && m'.bytes == m.bytes
    ensures BytesCover(m')
  {
    forall sid ensures TrueSize(m'.queue, sid) <= BytesOf(m', sid) {
      assert TrueSize(m.queue, sid) <= BytesOf(m, sid);
    }
  }

  lemma CompletedKeeps(w: World, ev: Event)
    requires Inv(w) && (w.phase == Appending(ev) || (w.phase.FirstMeta? && w.phase.ev == ev))
    requires ev in Log(w.disk, ev.sid) && ev.sid !in w.gap
    ensures Inv(Completed(w, ev))
  {
    hide Numbers, InOrder, Covered, Acks, Posted, Closed, BatchesClosed, BytesCover;
    var w' := Completed(w, ev);
    LoggedAt(w.disk, ev);
    if ev in w.mem.unwritten {
      UnwrittenQueued(w.mem.queue, w.mem.unwritten, w.handed);
      assert Free(w'.mem) == Free(w.mem) + {ev};
      assert Known(w') == Known(w);
      assert Live(w') <= Live(w) + {ev};
      CoveredGrows(w.done, ev, w.gap, w.disk);
      InOrderShrinks(w.mem.queue, w.mem.unwritten, w'.mem.unwritten, w.handed);
      NewestSkipsNothing(w, ev);
      FewerLive(w.sent, w.stored, Live(w) + {ev}, Live(w'));
      SameBytes(w.mem, w'.mem);
    } else {
      assert w'.mem == w.mem;
      IdleKeeps(w, w.retry);
    }
  }

  lemma MetaCovered(written: set<Event>, gap: set<Sid>, d: Disk, sid: Sid, content: Meta)
    requires Covered(written, gap, d)
    requires forall e :: e in written && e.sid == sid ==> e.num <= content.lastSeq
    ensures Covered(written, gap - {sid}, d.(metas := d.metas[sid := content]))
  {
    var d' := d.(metas := d.metas[sid := content]);
    forall e | e in written && e.sid !in gap - {sid} ensures e.num <= HighWater(d', e.sid) {
      assert Log(d', e.sid) == Log(d, e.sid);
    }
  }

  lemma MetaAcks(stored: set<Event>, meta: map<Sid, Meta>, d: Disk, sid: Sid, content: Meta)
    requires Acks(stored, meta, d) && content.acked <= MetaAt(meta, sid).acked
    ensures Acks(stored, meta, d.(metas := d.metas[sid := content]))
  {
  }

  lemma PutMetaKeeps(w: World, sid: Sid, content: Meta)
    requires Inv(w) && !w.phase.RewritingLog? && !w.phase.Clearing?
    requires CoversMeta(w.done, sid, content, MetaAt(w.mem.meta, sid).acked)
    ensures Inv(PutMeta(w, sid, content))
  {
    hide Numbers, InOrder, Covered, Acks, Posted, Closed, BatchesClosed, Owing, BytesCover, GapQuiet;
    var w' := PutMeta(w, sid, content);
    QuietShrinks(Free(w.mem), w.mem.unwritten, w.done, w.gap, w.phase, Free(w.mem), w.mem.unwritten, w'.gap, w.phase);
    MetaCovered(w.done, w.gap, w.disk, sid, content);
    MetaAcks(w.stored, w.mem.meta, w.disk, sid, content);
    assert Logged(w'.disk) == Logged(w.disk);
    assert forall s :: Log(w'.disk, s) == Log(w.disk, s);
  }

  lemma RewritingKeeps(w: World, sid: Sid)
    requires Inv(w)
    requires CoversMeta(w.done, sid, MetaFile(w.disk, sid), MetaAt(w.mem.meta, sid).acked)
    ensures Inv(w.(phase := RewritingLog(sid, Mine(w.mem.queue, sid, w.mem.unwritten))))
  {
    hide Numbers, InOrder, Covered, Acks, Posted, Closed, BatchesClosed, BytesCover, CoversMeta, GapQuiet;
    var w' := w.(phase := RewritingLog(sid, Mine(w.mem.queue, sid, w.mem.unwritten)));
    QuietShrinks(Free(w.mem), w.mem.unwritten, w.done, w.gap, w.phase, Free(w.mem), w.mem.unwritten, w.gap, w'.phase);
    MineSpec(w.mem.queue, sid, w.mem.unwritten);
    assert InFlight(w'.phase) <= Free(w.mem);
    NumbersShrink(Known(w), Known(w'), w.mem.meta, w.clock, w.clock);
  }

  lemma LogCovered(written: set<Event>, gap: set<Sid>, d: Disk, sid: Sid, lines: seq<Event>)
    requires Covered(written, gap, d)
    requires forall e :: e in written && e.sid == sid ==> e.num <= MetaFile(d, sid).lastSeq
    ensures Covered(written, gap, d.(logs := d.logs[sid := lines]))
  {
    var d' := d.(logs := d.logs[sid := lines]);
    forall e | e in written && e.sid !in gap ensures e.num <= HighWater(d', e.sid) {
      assert MetaFile(d', e.sid) == MetaFile(d, e.sid);
      if e.sid != sid {
        assert Log(d', e.sid) == Log(d, e.sid);
      }
    }
  }

  /** The log is written whole, with at least what the server is still owed. */
  lemma PutLogKeeps(w: World, sid: Sid, lines: seq<Event>)
    requires Inv(w)
    requires forall e :: e in lines ==> e.sid == sid && e in InFlight(w.phase)
    requires CoversMeta(w.done, sid, MetaFile(w.disk, sid), MetaAt(w.mem.meta, sid).acked)
    requires forall e :: e in Live(w) - w.stored && e.sid == sid ==> e in lines
    ensures Inv(PutLog(w, sid, lines).(phase := Idle))
  {
    hide Numbers, InOrder, Covered, Acks, Posted, Closed, BatchesClosed, BytesCover, PhaseCovers, GapQuiet;
    var w' := PutLog(w, sid, lines).(phase := Idle);
    QuietShrinks(Free(w.mem), w.mem.unwritten, w.done, w.gap, w.phase, Free(w.mem), w.mem.unwritten, w.gap, Idle);
    LoggedAfterPut(w.disk, sid, lines);
    NumbersShrink(Known(w), Known(w'), w.mem.meta, w.clock, w.clock);
    LogCovered(w.done, w.gap, w.disk, sid, lines);
    AcksSameMetas(w.stored, w.mem.meta, w.disk, w'.disk);
    IdleCovers(w'.done, w'.gap, w'.disk, w'.mem.meta);
  }

  lemma IdleCovers(written: set<Event>, gap: set<Sid>, d: Disk, meta: map<Sid, Meta>)
    ensures PhaseCovers(Idle, written, gap, d, meta)
  {
  }

  lemma RemovedLogged(d: Disk, sid: Sid)
    requires OwnLogs(d)
    ensures var d' := d.(logs := d.logs - {sid});
            && OwnLogs(d')
            && (forall e :: e in Logged(d') <==> e in Logged(d) && e.sid != sid)
  {
    var d' := d.(logs := d.logs - {sid});
    forall s, e | e in Log(d', s) ensures e.sid == s {
      assert e in Log(d, s);
    }
    forall e ensures e in Logged(d') <==> e in Logged(d) && e.sid != sid {
      LoggedAt(d, e);
      LoggedAt(d', e);
    }
  }

  lemma RemovedCovered(written: set<Event>, gap: set<Sid>, d: Disk, sid: Sid)
    requires Covered(written, gap, d)
    ensures Covered(written, gap + {sid}, d.(logs := d.logs - {sid}))
  {
    var d' := d.(logs := d.logs - {sid});
    forall e | e in written && e.sid !in gap + {sid} ensures e.num <= HighWater(d', e.sid) {
      assert Log(d', e.sid) == Log(d, e.sid);
    }
  }

  lemma RemovedKeeps(w: World, sid: Sid)
    requires Inv(w) && w.phase == Removing(sid)
    ensures Inv(Landed(w))
  {
    hide Numbers, InOrder, Covered, Acks, Posted, Closed, BatchesClosed, BytesCover, GapQuiet;
    var w' := Landed(w);
    QuietShrinks(Free(w.mem), w.mem.unwritten, w.done, w.gap, w.phase, Free(w.mem), w.mem.unwritten, w'.gap, w'.phase);
    RemovedLogged(w.disk, sid);
    NumbersShrink(Known(w), Known(w'), w.mem.meta, w.clock, w.clock);
    RemovedCovered(w.done, w.gap, w.disk, sid);
    AcksSameMetas(w.stored, w.mem.meta, w.disk, w'.disk);
    DoneNumbers(w);
  }

  lemma ClearingKeeps(w: World, sid: Sid)
    requires Inv(w) && w.phase.ClearingMeta? && w.phase.sid == sid
    requires CoversMeta(w.done, sid, MetaFile(w.disk, sid), MetaAt(w.mem.meta, sid).acked)
    ensures Inv(w.(phase := Clearing(sid)))
  {
    hide Numbers, InOrder, Covered, Acks, Posted, Closed, BatchesClosed, BytesCover, CoversMeta;
    assert Known(w.(phase := Clearing(sid))) == Known(w);
  }

  lemma FirstMetaKeeps(w: World, ev: Event)
    requires Inv(w) && w.phase == Appending(ev) && ev in Log(w.disk, ev.sid)
    ensures Inv(w.(phase := FirstMeta(ev, MetaOf(w.mem, ev.sid))))
  {
    hide Numbers, InOrder, Covered, Acks, Posted, Closed, BatchesClosed, BytesCover;
    assert Known(w.(phase := FirstMeta(ev, MetaOf(w.mem, ev.sid)))) == Known(w);
    DoneNumbers(w);
  }

  lemma PhaseFacts(w: World)
    requires Inv(w)
    ensures Files(w.disk, w.phase)
    ensures PhaseCovers(w.phase, w.done, w.gap, w.disk, w.mem.meta)
    ensures Owing(Live(w) - w.stored, Free(w.mem), Logged(w.disk), w.phase)
  {
    hide Numbers, Files, InOrder, Covered, GapQuiet, PhaseCovers, Acks, Posted, Closed, BatchesClosed, Owing,
         BytesCover;
  }

  lemma LandKeeps(w: World)
    requires Inv(w) && !w.phase.Idle?
    ensures Inv(Landed(w))
  {
    hide Inv;
    PhaseFacts(w);
    match w.phase
    case Appending(ev) =>
      LineKeeps(w, ev);
      var w' := PutLog(w, ev.sid, Log(w.disk, ev.sid) + [ev]).(gap := w.gap - {ev.sid});
      if ev.num == 1 {
        FirstMetaKeeps(w', ev);
      } else {
        CompletedKeeps(w', ev);
      }
    case FirstMeta(ev, content) =>
      PutMetaKeeps(w, ev.sid, content);
      CompletedKeeps(PutMeta(w, ev.sid, content), ev);
    case RewritingMeta(sid, content) =>
      PutMetaKeeps(w, sid, content);
      RewritingKeeps(PutMeta(w, sid, content), sid);
    case RewritingLog(sid, lines) =>
      PutLogKeeps(w, sid, lines);
    case WritingMeta(sid, content) =>
      PutMetaKeeps(w, sid, content);
      IdleKeeps(PutMeta(w, sid, content), w.retry);
    case ClearingMeta(sid, content) =>
      PutMetaKeeps(w, sid, content);
      ClearingKeeps(PutMeta(w, sid, content), sid);
    case Clearing(sid) =>
      PutLogKeeps(w, sid, []);
    case Removing(sid) =>
      RemovedKeeps(w, sid);
    case ForgettingMeta(sid, content) =>
      PutMetaKeeps(w, sid, content);
      IdleKeeps(PutMeta(w, sid, content), w.retry);
  }

  // ----- posting, and what the server does with it -----

  lemma PostInOrder(q: seq<Event>, unwritten: set<Event>, handed: set<Event>, batch: seq<Event>)
    requires InOrder(q, unwritten, handed) && batch <= q
    requires forall e :: e in batch ==> e !in unwritten
    requires forall a, b :: a in q && b in q && SameKey(a, b) ==> a == b
    ensures InOrder(q, unwritten, handed + set e | e in batch)
  {
    forall u, h | u in unwritten && h in batch && h.sid == u.sid ensures h.num < u.num {
      assert u in multiset(q);
      var i :| 0 <= i < |batch| && batch[i] == h;
      var j :| 0 <= j < |q| && q[j] == u;
      assert q[i] == h;
      assert SameKey(h, u) ==> h == u;
    }
  }

  /** A batch is the front of the queue, so it skips nothing the server is owed. */
  lemma PostSkipsNothing(w: World, batch: seq<Event>)
    requires Ordered(w.mem.queue) && batch <= w.mem.queue
    requires Live(w) - w.stored <= Queued(w.mem)
    requires BatchesClosed(w.sent, w.stored, Live(w))
    ensures BatchesClosed(w.sent + {batch}, w.stored, Live(w))
  {
    forall x, e | x in batch && e in Live(w) && e.sid == x.sid && e.num < x.num && e !in w.stored
      ensures e in batch
    {
      var i :| 0 <= i < |batch| && batch[i] == x;
      assert e in Queued(w.mem);
      var j :| 0 <= j < |w.mem.queue| && w.mem.queue[j] == e;
      assert w.mem.queue[i] == x;
      assert j < |batch|;
      assert batch[j] == e;
    }
  }

  lemma NumbersUnique(w: World)
    requires Numbers(Known(w), w.mem.meta, w.clock) && w.handed <= w.done
    ensures forall a, b :: a in w.mem.queue && b in w.mem.queue && SameKey(a, b) ==> a == b
    ensures forall a, b :: a in w.handed + Queued(w.mem) && b in w.handed + Queued(w.mem) && SameKey(a, b) ==> a == b
  {
    assert w.handed + Queued(w.mem) <= Known(w);
    assert forall a :: a in w.mem.queue ==> a in Known(w);
  }

  lemma PostKeeps(w: World, batch: seq<Event>)
    requires Inv(w) && batch <= w.mem.queue && forall e :: e in batch ==> e !in w.mem.unwritten
    ensures Inv(w.(sent := w.sent + {batch}, handed := w.handed + set e | e in batch))
  {
    hide Numbers, Covered, GapQuiet, PhaseCovers, Acks, Closed, BatchesClosed, BytesCover, InOrder;
    var w' := w.(sent := w.sent + {batch}, handed := w.handed + set e | e in batch);
    var batched := set e | e in batch;
    assert batched <= Free(w.mem);
    assert Known(w') == Known(w);
    NumbersUnique(w);
    PostInOrder(w.mem.queue, w.mem.unwritten, w.handed, batch);
    InOrderFacts(w.mem.queue, w.mem.unwritten, w.handed);
    PostSkipsNothing(w, batch);
  }

  lemma InOrderFacts(q: seq<Event>, unwritten: set<Event>, handed: set<Event>)
    requires InOrder(q, unwritten, handed)
    ensures Ordered(q)
    ensures forall u :: u in unwritten ==> multiset(q)[u] == 1
  {
  }

  lemma {:induction false} IngestedSpec(stored: set<Event>, batch: seq<Event>, refuses: set<Event>)
    ensures var r := Ingested(stored, batch, refuses);
            && stored <= r
            && (forall e :: e in r ==> e in stored || e in batch)
            && (forall e :: e in batch && e !in refuses ==> exists x :: x in r && SameKey(x, e))
    decreases |batch|
  {
    if batch != [] {
      var e := batch[0];
      var s := if e in refuses || (exists x :: x in stored && SameKey(x, e)) then stored else stored + {e};
      IngestedSpec(s, batch[1..], refuses);
      assert batch == [e] + batch[1..];
      assert e !in refuses ==> exists x :: x in s && SameKey(x, e);
    }
  }

  /** One delivery keeps what the server holds closed: the batch brought everything below what it stores. */
  lemma DeliverCloses(w: World, batch: seq<Event>, refuses: set<Event>, live: set<Event>)
    requires batch in w.sent && live == Live(w) - refuses
    requires Posted(w.stored, w.refused, w.sent, w.handed)
    requires Closed(w.stored, Live(w)) && BatchesClosed(w.sent, w.stored, Live(w))
    requires Live(w) - w.stored <= Queued(w.mem)
    requires forall a, b :: a in w.handed + Queued(w.mem) && b in w.handed + Queued(w.mem) && SameKey(a, b) ==> a == b
    ensures Closed(Ingested(w.stored, batch, refuses), live)
  {
    var r := Ingested(w.stored, batch, refuses);
    IngestedSpec(w.stored, batch, refuses);
    assert forall e :: e in batch ==> e in w.handed;
    forall s, e | s in r && e in live && e.sid == s.sid && e.num <= s.num
      ensures e in r
    {
      assert e in w.handed + Queued(w.mem);
      if e !in w.stored {
        assert s in batch;
        if e.num < s.num {
          assert e in batch;
          var x :| x in r && SameKey(x, e);
          assert x in w.handed + Queued(w.mem);
        } else {
          assert SameKey(s, e);
        }
      }
    }
  }

  lemma DeliverKeepsBatches(sent: set<seq<Event>>, stored: set<Event>, live: set<Event>, more: set<Event>,
                            fewer: set<Event>)
    requires BatchesClosed(sent, stored, live) && stored <= more && fewer <= live
    ensures BatchesClosed(sent, more, fewer)
  {
  }

  lemma DeliverAcks(stored: set<Event>, more: set<Event>, meta: map<Sid, Meta>, d: Disk)
    requires Acks(stored, meta, d) && stored <= more
    ensures Acks(more, meta, d)
  {
    forall sid ensures Reached(more, sid, MetaAt(meta, sid).acked) {
      assert Reached(stored, sid, MetaAt(meta, sid).acked);
    }
  }

  lemma DeliverKeeps(w: World, batch: seq<Event>, refuses: set<Event>)
    requires Inv(w) && batch in w.sent && forall e :: e in refuses ==> e in batch
    ensures Inv(w.(stored := Ingested(w.stored, batch, refuses), refused := w.refused + refuses))
  {
    hide Numbers, Covered, GapQuiet, PhaseCovers, Acks, Closed, BatchesClosed, BytesCover, InOrder;
    var w' := w.(stored := Ingested(w.stored, batch, refuses), refused := w.refused + refuses);
    NumbersUnique(w);
    assert Live(w') == Live(w) - refuses;
    DeliverCloses(w, batch, refuses, Live(w'));
    IngestedSpec(w.stored, batch, refuses);
    DeliverKeepsBatches(w.sent, w.stored, Live(w), w'.stored, Live(w'));
    DeliverAcks(w.stored, w'.stored, w.mem.meta, w.disk);
    assert Known(w') == Known(w);
  }

  // ----- acknowledgements and refusals -----

  /** The parts of the memory the invariant looks at, after the queue lost events nobody is owed. */
  lemma LeavingKeeps(w: World, m: Mem)
    requires Inv(w)
    requires Queued(m) <= Queued(w.mem) && Ordered(m.queue) && m.unwritten == w.mem.unwritten
    requires forall u :: u in m.unwritten ==> multiset(m.queue)[u] == 1
    requires Live(w) - w.stored <= Queued(m)
    requires forall sid :: MetaAt(m.meta, sid).lastSeq == MetaAt(w.mem.meta, sid).lastSeq
    requires forall sid :: MetaAt(m.meta, sid).acked >= MetaAt(w.mem.meta, sid).acked
    requires forall sid :: Reached(w.stored, sid, MetaAt(m.meta, sid).acked)
    requires BytesCover(m)
    ensures Inv(w.(mem := m))
  {
    hide Numbers, Covered, PhaseCovers, Closed, BatchesClosed, BytesCover, Posted, Reached, GapQuiet;
    var w' := w.(mem := m);
    assert Free(m) <= Free(w.mem);
    QuietShrinks(Free(w.mem), w.mem.unwritten, w.done, w.gap, w.phase, Free(m), m.unwritten, w.gap, w.phase);
    NumbersShrink(Known(w), Known(w'), w.mem.meta, w.clock, w.clock);
    NumbersSameMarks(Known(w'), w.mem.meta, m.meta, w.clock);
    PhaseCoversMore(w.phase, w.done, w.gap, w.disk, w.mem.meta, m.meta);
  }

  lemma NumbersSameMarks(known: set<Event>, meta: map<Sid, Meta>, meta': map<Sid, Meta>, clock: int)
    requires Numbers(known, meta, clock)
    requires forall sid :: MetaAt(meta', sid).lastSeq == MetaAt(meta, sid).lastSeq
    ensures Numbers(known, meta', clock)
  {
  }

  lemma PhaseCoversMore(p: Phase, written: set<Event>, gap: set<Sid>, d: Disk, meta: map<Sid, Meta>,
                        meta': map<Sid, Meta>)
    requires PhaseCovers(p, written, gap, d, meta)
    requires forall sid :: MetaAt(meta', sid).acked >= MetaAt(meta, sid).acked
    ensures PhaseCovers(p, written, gap, d, meta')
  {
  }

  /** Settling moves a session's acknowledged number up to what it is told, and no number down. */
  ghost predicate Settled(m: Mem, r: Mem, acked: map<Sid, int>) {
    && r.queue == m.queue && r.unwritten == m.unwritten
    && (forall s :: MetaAt(r.meta, s).lastSeq == MetaAt(m.meta, s).lastSeq)
    && (forall s :: MetaAt(r.meta, s).acked >= MetaAt(m.meta, s).acked)
    && (forall s :: MetaAt(r.meta, s).acked == MetaAt(m.meta, s).acked || MetaAt(r.meta, s).acked == UpTo(acked, s))
  }

  lemma SettleEffect(m: Mem, sid: Sid, acked: map<Sid, int>)
    ensures Settled(m, Settle(m, sid, UpTo(acked, sid)), acked)
  {
  }

  lemma {:induction false} SettleAllEffect(m: Mem, sids: seq<Sid>, acked: map<Sid, int>)
    ensures Settled(m, SettleAll(m, sids, acked), acked)
    decreases |sids|
  {
    hide Settle;
    if sids != [] {
      SettleEffect(m, sids[0], acked);
      SettleAllEffect(Settle(m, sids[0], UpTo(acked, sids[0])), sids[1..], acked);
    }
  }

  /** What an acknowledgement removes was stored: neither owed nor still to be written. */
  lemma AckTakesOnlyStored(w: World, acked: map<Sid, int>)
    requires forall sid :: sid in acked ==> Reached(w.stored, sid, acked[sid])
    requires Closed(w.stored, Live(w)) && Posted(w.stored, w.refused, w.sent, w.handed)
    requires InOrder(w.mem.queue, w.mem.unwritten, w.handed)
    requires forall e :: e in Known(w) ==> 1 <= e.num
    requires Live(w) - w.stored <= Queued(w.mem)
    ensures forall u :: u in w.mem.unwritten ==> !IsAcked(u, acked)
    ensures forall e :: e in Live(w) - w.stored ==> !IsAcked(e, acked)
  {
    forall e | e in Known(w) && IsAcked(e, acked)
      ensures e !in w.mem.unwritten && e !in Live(w) - w.stored
    {
      assert Reached(w.stored, e.sid, acked[e.sid]);
      var s :| s in w.stored && s.sid == e.sid && acked[e.sid] <= s.num;
      assert s in w.handed;
    }
    UnwrittenQueued(w.mem.queue, w.mem.unwritten, w.handed);
  }

  lemma KnownPositive(w: World)
    requires Numbers(Known(w), w.mem.meta, w.clock)
    ensures forall e :: e in Known(w) ==> 1 <= e.num
  {
  }

  lemma AckReached(stored: set<Event>, d: Disk, m: Mem, r: Mem, acked: map<Sid, int>)
    requires Acks(stored, m.meta, d) && Settled(m, r, acked)
    requires forall sid :: sid in acked ==> Reached(stored, sid, acked[sid])
    ensures forall sid :: Reached(stored, sid, MetaAt(r.meta, sid).acked)
  {
    forall sid ensures Reached(stored, sid, MetaAt(r.meta, sid).acked) {
      assert Reached(stored, sid, MetaAt(m.meta, sid).acked);
    }
  }

  lemma AckKeeps(w: World, acked: map<Sid, int>)
    requires Inv(w) && forall sid :: sid in acked ==> Reached(w.stored, sid, acked[sid])
    ensures Inv(w.(mem := Ack(w.mem, acked)))
  {
    hide Numbers, InOrder, Acks, Covered, PhaseCovers, Closed, BatchesClosed, BytesCover, Posted, Reached, Files,
         GapQuiet, Ordered;
    KnownPositive(w);
    InOrderFacts(w.mem.queue, w.mem.unwritten, w.handed);
    AckTakesOnlyStored(w, acked);
    AckKeepSpec(w.mem.queue, acked);
    AckKeepOrdered(w.mem.queue, acked);
    var m' := w.mem.(queue := AckKeep(w.mem.queue, acked), bytes := AckBytes(w.mem.queue, acked, w.mem.bytes));
    SettleAllEffect(m', Touched(w.mem.queue, acked, {}), acked);
    AckReached(w.stored, w.disk, m', Ack(w.mem, acked), acked);
    AckCovers(w.mem, acked);
    LeavingKeeps(w, Ack(w.mem, acked));
  }

  lemma DropEffect(m: Mem, sid: Sid, num: nat)
    ensures var r := Drop(m, sid, num);
            && r.queue == DropKeep(m.queue, sid, num) && r.unwritten == m.unwritten
            && (forall s :: MetaAt(r.meta, s) == MetaAt(m.meta, s))
  {
    DropKeepLength(m.queue, sid, num);
  }

  lemma RefusalKeeps(w: World, ev: Event)
    requires Inv(w) && ev in w.refused
    ensures Inv(w.(mem := Drop(w.mem, ev.sid, ev.num)))
  {
    hide Numbers, Covered, PhaseCovers, Closed, BatchesClosed, BytesCover, Reached, Files, GapQuiet;
    DropKeepSpec(w.mem.queue, ev.sid, ev.num);
    DropKeepOrdered(w.mem.queue, ev.sid, ev.num);
    DropEffect(w.mem, ev.sid, ev.num);
    DropCovers(w.mem, ev.sid, ev.num);
    NumbersUnique(w);
    forall e | e in Live(w) - w.stored ensures !(e.sid == ev.sid && e.num == ev.num) {
      assert e in w.handed + Queued(w.mem) && ev in w.handed + Queued(w.mem);
      assert SameKey(e, ev) ==> e == ev;
    }
    LeavingKeeps(w, Drop(w.mem, ev.sid, ev.num));
  }

  lemma CloseKeeps(w: World, sid: Sid)
    requires Inv(w)
    ensures Inv(w.(mem := MarkClosed(w.mem, sid)))
  {
    hide Numbers, Covered, PhaseCovers, Closed, BatchesClosed, BytesCover, Posted, Reached, Files, GapQuiet;
    MarkClosedCovers(w.mem, sid);
    LeavingKeeps(w, MarkClosed(w.mem, sid));
  }

  // ----- appending -----

  lemma ShedEffect(m: Mem, sid: Sid)
    ensures var r := Shed(m, sid);
            && r.queue == ShedScan(m.queue, sid, BytesOf(m, sid), m.cap).keep
            && r.unwritten == m.unwritten - Gone(m, sid)
            && r.meta == m.meta
  {
    hide ShedScan;
    ShedsNothingOrCounts(m, sid);
  }

  /** Shedding takes events out of the queue for good: one that was there once is there no more. */
  lemma ShedLeaves(m: Mem, sid: Sid)
    ensures var r := Shed(m, sid); var gone := Gone(m, sid);
            && Queued(r) <= Queued(m)
            && Queued(m) <= Queued(r) + gone
            && gone <= Queued(m)
            && (Ordered(m.queue) ==> Ordered(r.queue))
            && (forall u :: multiset(m.queue)[u] == 1 ==> multiset(r.queue)[u] == if u in gone then 0 else 1)
  {
    hide ShedScan, Shed;
    ShedEffect(m, sid);
    ShedPartition(m.queue, sid, BytesOf(m, sid), m.cap);
    var scan := ShedScan(m.queue, sid, BytesOf(m, sid), m.cap);
    if Ordered(m.queue) {
      ShedOrdered(m.queue, sid, BytesOf(m, sid), m.cap);
    }
    forall e ensures e in m.queue <==> e in scan.keep || e in scan.dropped {
      ShedMembers(m.queue, sid, BytesOf(m, sid), m.cap, e);
    }
    forall u | multiset(m.queue)[u] == 1 ensures multiset(scan.keep)[u] == if u in Gone(m, sid) then 0 else 1 {
      assert multiset(m.queue)[u] == multiset(scan.keep)[u] + multiset(scan.dropped)[u];
      assert u in scan.dropped <==> u in multiset(scan.dropped);
    }
  }

  /** What an append does to the queue: the new event joins it at the end, and what is shed leaves it. */
  lemma AppendEffect(m: Mem, ev: Event)
    ensures var r := Append(m, ev); var gone := ShedBy(m, ev);
            && Queued(r) <= Queued(m) + {ev}
            && Queued(m) + {ev} <= Queued(r) + gone
            && r.unwritten == m.unwritten + {ev} - gone
            && r.meta == m.meta[ev.sid := MetaOf(m, ev.sid).(lastSeq := ev.num)]
            && (Ordered(m.queue + [ev]) ==> Ordered(r.queue))
            && (forall u :: multiset(m.queue + [ev])[u] == 1 ==> multiset(r.queue)[u] == if u in gone then 0 else 1)
  {
    hide Shed, Gone;
    var e1 := Enqueued(m, ev);
    assert Queued(e1) == Queued(m) + {ev};
    ShedEffect(e1, ev.sid);
    ShedLeaves(e1, ev.sid);
  }

  lemma AppendNumbers(known: set<Event>, more: set<Event>, meta: map<Sid, Meta>, clock: int, ev: Event)
    requires Numbers(known, meta, clock) && more <= known + {ev}
    requires ev.num == MetaAt(meta, ev.sid).lastSeq + 1 && ev.ts == clock
    ensures Numbers(more, meta[ev.sid := MetaAt(meta, ev.sid).(lastSeq := ev.num)], clock)
  {
  }

  /** The new event's number is above every number known, so it is nowhere yet and belongs at the end. */
  lemma AppendIsNew(w: World, ev: Event)
    requires Numbers(Known(w), w.mem.meta, w.clock) && Ordered(w.mem.queue)
    requires ev.num == MetaAt(w.mem.meta, ev.sid).lastSeq + 1
    ensures ev !in Known(w)
    ensures Ordered(w.mem.queue + [ev])
    ensures forall e :: e in w.done && e.sid == ev.sid ==> e.num < ev.num
  {
    assert forall e :: e in w.mem.queue ==> e in Known(w);
  }

  lemma AppendInOrder(w: World, ev: Event)
    requires InOrder(w.mem.queue, w.mem.unwritten, w.handed)
    requires ev !in w.mem.queue && Ordered(w.mem.queue + [ev])
    requires forall h :: h in w.handed && h.sid == ev.sid ==> h.num < ev.num
    ensures InOrder(Append(w.mem, ev).queue, Append(w.mem, ev).unwritten, w.handed)
    ensures Free(Append(w.mem, ev)) <= Free(w.mem)
    ensures Free(w.mem) <= Free(Append(w.mem, ev)) + ShedBy(w.mem, ev)
  {
    AppendEffect(w.mem, ev);
    var m' := Append(w.mem, ev);
    forall u | u in w.mem.unwritten + {ev} ensures multiset(w.mem.queue + [ev])[u] == 1 {
      assert multiset(w.mem.queue + [ev]) == multiset(w.mem.queue) + multiset{ev};
    }
    forall e | e in Free(m') ensures e in Free(w.mem) {
      assert e in multiset(m'.queue);
    }
  }

  lemma AppendQuiet(w: World, ev: Event, m: Mem)
    requires GapQuiet(Free(w.mem), w.mem.unwritten, w.done, w.gap, w.phase)
    requires Free(m) <= Free(w.mem) && m.unwritten <= w.mem.unwritten + {ev}
    requires forall e :: e in w.done && e.sid == ev.sid ==> e.num < ev.num
    ensures GapQuiet(Free(m), m.unwritten, w.done, w.gap, w.phase)
  {
  }

  lemma AppendAcks(stored: set<Event>, meta: map<Sid, Meta>, d: Disk, sid: Sid, num: nat)
    requires Acks(stored, meta, d)
    ensures Acks(stored, meta[sid := MetaAt(meta, sid).(lastSeq := num)], d)
  {
    var meta' := meta[sid := MetaAt(meta, sid).(lastSeq := num)];
    forall s ensures MetaAt(meta', s).acked == MetaAt(meta, s).acked {
    }
  }

  lemma AppendOwes(owed: set<Event>, free: set<Event>, logged: set<Event>, p: Phase, gone: set<Event>,
                   free': set<Event>)
    requires Owing(owed, free, logged, p) && free <= free' + gone
    ensures Owing(owed - gone, free', logged, p)
  {
  }

  lemma AppendRecords(w: World, ev: Event, m: Mem, gone: set<Event>)
    requires Records(w) && ev !in w.done
    requires Free(m) <= Free(w.mem) && m.unwritten == w.mem.unwritten + {ev} - gone
    ensures Records(w.(mem := m, shed := w.shed + gone))
  {
  }

  lemma AppendKnown(w: World, ev: Event, m: Mem, shed: set<Event>)
    requires Queued(m) <= Queued(w.mem) + {ev}
    ensures Known(w.(mem := m, shed := shed)) <= Known(w) + {ev}
  {
  }

  lemma DoneIsKnown(w: World)
    requires Records(w)
    ensures w.done <= Known(w) && w.handed <= w.done && forall e :: e in w.mem.queue ==> e in Known(w)
  {
  }

  lemma AppendKeeps(w: World, ev: Event)
    requires Inv(w) && ev.num == MetaOf(w.mem, ev.sid).lastSeq + 1 && ev.ts == w.clock
    ensures Inv(w.(mem := Append(w.mem, ev), shed := w.shed + ShedBy(w.mem, ev)))
  {
    hide Numbers, InOrder, Covered, Acks, Posted, Closed, BatchesClosed, BytesCover, GapQuiet, PhaseCovers, Files;
    hide Append, ShedBy, Records, Owing, Known, Queued, Free, Ordered;
    var w' := w.(mem := Append(w.mem, ev), shed := w.shed + ShedBy(w.mem, ev));
    InOrderFacts(w.mem.queue, w.mem.unwritten, w.handed);
    AppendIsNew(w, ev);
    DoneIsKnown(w);
    AppendEffect(w.mem, ev);
    AppendInOrder(w, ev);
    AppendQuiet(w, ev, w'.mem);
    AppendAcks(w.stored, w.mem.meta, w.disk, ev.sid, ev.num);
    AppendKnown(w, ev, w'.mem, w'.shed);
    AppendNumbers(Known(w), Known(w'), w.mem.meta, w.clock, ev);
    PhaseCoversMore(w.phase, w.done, w.gap, w.disk, w.mem.meta, w'.mem.meta);
    assert Live(w') == Live(w) - ShedBy(w.mem, ev);
    FewerLive(w.sent, w.stored, Live(w), Live(w'));
    AppendOwes(Live(w) - w.stored, Free(w.mem), Logged(w.disk), w.phase, ShedBy(w.mem, ev), Free(w'.mem));
    assert Live(w') - w.stored == Live(w) - w.stored - ShedBy(w.mem, ev);
    AppendRecords(w, ev, w'.mem, ShedBy(w.mem, ev));
    AppendCovers(w.mem, ev);
  }

  // ----- dying and coming back -----

  lemma LoadedInOrder(m: Mem, known: set<Event>, meta: map<Sid, Meta>, clock: int)
    requires Numbers(known, meta, clock) && ByTime(m.queue) && Queued(m) <= known
    ensures Ordered(m.queue)
  {
    forall i, j | 0 <= i < j < |m.queue| && m.queue[i].sid == m.queue[j].sid
      ensures m.queue[i].num <= m.queue[j].num
    {
      assert m.queue[i] in Queued(m) && m.queue[j] in Queued(m);
      assert Before(m.queue[i], m.queue[j]);
    }
  }

  /**
   What is found in the logs and was not complete before the crash was still to be handed out, so nothing skipped it.
   */
  lemma FoundSkipsNothing(w: World, found: set<Event>)
    requires InOrder(w.mem.queue, w.mem.unwritten, w.handed)
    requires Posted(w.stored, w.refused, w.sent, w.handed)
    requires Closed(w.stored, Live(w)) && BatchesClosed(w.sent, w.stored, Live(w))
    requires found <= w.done + w.shed + w.mem.unwritten
    ensures Closed(w.stored, w.done + found - w.shed - w.refused)
    ensures BatchesClosed(w.sent, w.stored, w.done + found - w.shed - w.refused)
  {
  }

  /** Nothing the server is owed is at or below the number the meta file counts as acknowledged. */
  lemma OwedIsUnacked(w: World, e: Event)
    requires Acks(w.stored, w.mem.meta, w.disk) && Posted(w.stored, w.refused, w.sent, w.handed)
    requires InOrder(w.mem.queue, w.mem.unwritten, w.handed) && Closed(w.stored, Live(w))
    requires e in Live(w) - w.stored || e in w.mem.unwritten
    requires 1 <= e.num
    ensures e.num > MetaFile(w.disk, e.sid).acked
  {
    var k := MetaAt(w.mem.meta, e.sid).acked;
    assert Reached(w.stored, e.sid, k);
    if k > 0 {
      var s :| s in w.stored && s.sid == e.sid && k <= s.num;
      assert s in w.handed;
    }
  }

  lemma HighestIsCovered(d: Disk, found: set<Event>, done: set<Event>)
    requires OwnLogs(d) && found <= Logged(d) && Covered(done, {}, d)
    ensures Covered(done + found, {}, d)
  {
    forall e | e in found ensures e.num <= HighWater(d, e.sid) {
      LoggedAt(d, e);
    }
  }

  /** A new process numbers on from the marks on disk, which cover everything it may find or that was ever written. */
  lemma LoadedNumbers(w: World, known: set<Event>, meta: map<Sid, Meta>)
    requires Numbers(Known(w), w.mem.meta, w.clock) && OwnLogs(w.disk)
    requires Covered(w.done, {}, w.disk)
    requires known <= w.done + Logged(w.disk)
    requires forall sid :: MetaAt(meta, sid).lastSeq == HighWater(w.disk, sid)
    ensures Numbers(known, meta, w.clock)
  {
    assert known <= Known(w);
    forall e | e in known ensures e.num <= MetaAt(meta, e.sid).lastSeq {
      if e in Logged(w.disk) {
        LoggedAt(w.disk, e);
      }
    }
  }

  /** After a restart everything still owed is queued again, from the logs. */
  lemma LoadedOwes(w: World, m: Mem)
    requires Inv(w) && m.unwritten == {}
    requires forall e :: e in m.queue <==> e in Log(w.disk, e.sid) && e.num > MetaFile(w.disk, e.sid).acked
    ensures Owing(w.done + Queued(m) - w.shed - w.refused - w.stored, Free(m), Logged(w.disk), Idle)
  {
    hide Numbers, Covered, GapQuiet, PhaseCovers, BatchesClosed, BytesCover, Closed, Acks, Posted, InOrder;
    DoneNumbers(w);
    forall e | e in Queued(m) ensures e in Logged(w.disk) {
      LoggedAt(w.disk, e);
    }
    forall e | e in w.done + Queued(m) - w.shed - w.refused - w.stored ensures e in m.queue {
      if e in w.done {
        assert e in Live(w) - w.stored;
        LoggedAt(w.disk, e);
        OwedIsUnacked(w, e);
      }
    }
  }

  lemma LoadedRecords(w: World, m: Mem)
    requires Inv(w) && m.unwritten == {}
    requires forall e :: e in m.queue <==> e in Log(w.disk, e.sid) && e.num > MetaFile(w.disk, e.sid).acked
    ensures Logged(w.disk) <= w.done + Queued(m) + w.shed
    ensures Queued(m) <= Logged(w.disk) && Logged(w.disk) <= w.done + w.shed + w.mem.unwritten
  {
    hide Numbers, Covered, GapQuiet, PhaseCovers, BatchesClosed, BytesCover, Closed, Acks, Posted, InOrder, Owing;
    forall e | e in Queued(m) ensures e in Logged(w.disk) {
      LoggedAt(w.disk, e);
    }
    UnwrittenNumbers(w);
    forall e | e in Logged(w.disk) && e !in w.done + w.shed ensures e in m.queue {
      LoggedAt(w.disk, e);
      OwedIsUnacked(w, e);
    }
  }

  lemma UnwrittenNumbers(w: World)
    requires Numbers(Known(w), w.mem.meta, w.clock) && InOrder(w.mem.queue, w.mem.unwritten, w.handed)
    ensures forall u :: u in w.mem.unwritten ==> 1 <= u.num
  {
    UnwrittenQueued(w.mem.queue, w.mem.unwritten, w.handed);
    assert forall u :: u in w.mem.unwritten ==> u in Known(w);
  }

  lemma LoadedAcks(stored: set<Event>, meta: map<Sid, Meta>, d: Disk, meta': map<Sid, Meta>)
    requires Acks(stored, meta, d)
    requires forall sid :: MetaAt(meta', sid).acked == MetaFile(d, sid).acked
    ensures Acks(stored, meta', d)
  {
    forall sid ensures Reached(stored, sid, MetaAt(meta', sid).acked) {
      assert Reached(stored, sid, MetaAt(meta, sid).acked);
      assert MetaAt(d.metas, sid).acked <= MetaAt(meta, sid).acked;
    }
  }

  lemma LoadedQuiet(free: set<Event>, done: set<Event>)
    ensures GapQuiet(free, {}, done, {}, Idle)
  {
  }

  lemma LoadedBytes(m: Mem)
    requires forall sid :: BytesOf(m, sid) == TrueSize(m.queue, sid)
    ensures BytesCover(m)
  {
  }

  lemma LoadedQueueInOrder(q: seq<Event>, handed: set<Event>)
    requires Ordered(q)
    ensures InOrder(q, {}, handed)
  {
  }

  ghost predicate LoadedFrom(d: Disk, m: Mem) {
    && (forall e :: e in m.queue <==> e in Log(d, e.sid) && e.num > MetaFile(d, e.sid).acked)
    && (forall sid :: MetaAt(m.meta, sid) == Meta(HighWater(d, sid), MetaFile(d, sid).acked))
    && m.unwritten == {}
    && ByTime(m.queue)
    && BytesCover(m)
  }

  lemma LoadIsLoaded(d: Disk, names: seq<Sid>, cap: nat)
    requires Listing(d, names) && OwnLogs(d)
    ensures LoadedFrom(d, Load(d, names, cap))
  {
    LoadSpec(d, names, cap);
    LoadedBytes(Load(d, names, cap));
    forall sid ensures MetaAt(Load(d, names, cap).meta, sid) == Meta(HighWater(d, sid), MetaFile(d, sid).acked) {
      assert MetaOf(Load(d, names, cap), sid) == Meta(HighWater(d, sid), MetaFile(d, sid).acked);
    }
  }

  /** The process dies outside `forget`'s gap and comes back: the invariant holds of what it loads. */
  lemma CrashKeeps(w: World, m: Mem)
    requires Inv(w) && w.gap == {} && LoadedFrom(w.disk, m)
    ensures Inv(Restarted(w, m))
  {
    hide Numbers, Covered, GapQuiet, PhaseCovers, BatchesClosed, BytesCover, Closed, Acks, Posted, InOrder, Owing,
         Ordered, ByTime;
    var w' := Restarted(w, m);
    LoadedOwes(w, m);
    LoadedRecords(w, m);
    assert w'.done == w.done + Queued(m);
    assert Free(m) == Queued(m);
    assert Known(w') <= w.done + Logged(w.disk);
    LoadedNumbers(w, Known(w'), m.meta);
    LoadedInOrder(m, Known(w'), m.meta, w.clock);
    LoadedQueueInOrder(m.queue, w.handed);
    HighestIsCovered(w.disk, Queued(m), w.done);
    LoadedQuiet(Free(m), w'.done);
    IdleCovers(w'.done, w'.gap, w'.disk, m.meta);
    LoadedAcks(w.stored, w.mem.meta, w.disk, m.meta);
    FoundSkipsNothing(w, Queued(m));
    assert Live(w') == w.done + Queued(m) - w.shed - w.refused;
  }

  // ----- whole runs -----

  lemma StepKeeps(w: World, s: Step)
    requires Inv(w) && Enabled(w, s) && OutsideGap(w, s)
    ensures Inv(Apply(w, s))
  {
    hide Inv, Load, LoadedFrom, Restarted, Owing, PhaseCovers, Append, ShedBy, Ack, Drop, MarkClosed, Ingested, Landed,
         Started;
    match s
    case Tick(now) => TickKeeps(w, now);
    case AppendStep(sid, kind, size, data) => AppendKeeps(w, NextEvent(w.mem, sid, kind, w.clock, size, data));
    case CloseStep(sid) => CloseKeeps(w, sid);
    case StartStep =>
      OpsKeep(w, w.retry, w.mem.ops[1..]);
      StartKeeps(w.(mem := w.mem.(ops := w.mem.ops[1..])), w.mem.ops[0]);
      StartedIgnoresOps(w.mem, w.mem.ops[1..], w.mem.ops[0]);
    case LandStep => LandKeeps(w);
    case FailStep => IdleKeeps(w, Failed(w).retry);
    case RetryStep(ev) => OpsKeep(w, w.retry - {ev}, w.mem.ops + [Persist(ev)]);
    case PostStep(max) =>
      PendingSpec(w.mem.queue, w.mem.unwritten, max);
      PostKeeps(w, Pending(w.mem.queue, w.mem.unwritten, max));
    case DeliverStep(batch, refuses) => DeliverKeeps(w, batch, refuses);
    case AckStep(acked) => AckKeeps(w, acked);
    case RefusalStep(ev) => RefusalKeeps(w, ev);
    case CrashStep(names) =>
      PhaseFacts(w);
      LoadIsLoaded(w.disk, names, w.mem.cap);
      CrashKeeps(w, Load(w.disk, names, w.mem.cap));
  }

  lemma StartedIgnoresOps(m: Mem, ops: seq<Op>, op: Op)
    ensures Started(m.(ops := ops), op) == Started(m, op)
  {
  }

  lemma {:induction false} RunKeeps(w: World, steps: seq<Step>)
    requires Inv(w) && Legal(w, steps) && Careful(w, steps)
    ensures Inv(Run(w, steps))
    decreases |steps|
  {
    hide Inv, Apply, Enabled;
    if steps != [] {
      StepKeeps(w, steps[0]);
      RunKeeps(Apply(w, steps[0]), steps[1..]);
    }
  }

  lemma FreshInv(cap: nat, clock: int)
    ensures Inv(Fresh(cap, clock))
  {
    var w := Fresh(cap, clock);
    assert Logged(w.disk) == {};
    assert Queued(w.mem) == {};
  }
}

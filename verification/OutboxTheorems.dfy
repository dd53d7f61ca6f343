/**
 The outbox's promises, over every run: any number of sessions, any interleaving, writes that
 fail, acknowledgements that are lost, crashes and restarts.
 */
module OutboxTheorems {
  import opened OutboxQueue
  import opened OutboxShed
  import opened OutboxLoad
  import opened OutboxRun
  import opened OutboxSafety

  ghost function After(cap: nat, clock: int, steps: seq<Step>): (w: World)
    requires Legal(Fresh(cap, clock), steps)
  {
    Run(Fresh(cap, clock), steps)
  }

  lemma RunIsSafe(cap: nat, clock: int, steps: seq<Step>)
    requires Legal(Fresh(cap, clock), steps) && Careful(Fresh(cap, clock), steps)
    ensures Inv(After(cap, clock, steps))
  {
    FreshInv(cap, clock);
    RunKeeps(Fresh(cap, clock), steps);
  }

  /**
   No number is used twice: two events ever handed out under one session and number are the same
   event, and whatever a restart finds on disk it numbers on from at least the highest number
   ever handed out.  (Outside `forget`'s gap; see `GapReusesNumber`.)
   */
  lemma NumbersAreNeverReused(cap: nat, clock: int, steps: seq<Step>, names: seq<Sid>)
    requires Legal(Fresh(cap, clock), steps) && Careful(Fresh(cap, clock), steps)
    requires Listing(After(cap, clock, steps).disk, names)
    ensures var w := After(cap, clock, steps);
            && (forall a, b :: a in w.handed && b in w.handed && SameKey(a, b) ==> a == b)
            && (forall e :: e in w.handed && e.sid !in w.gap ==>
                e.num <= MetaOf(Load(w.disk, names, cap), e.sid).lastSeq)
  {
    hide Run, Legal, Careful, Load, InOrder, GapQuiet, PhaseCovers, Acks, Posted, Closed, BatchesClosed, Owing,
         BytesCover;
    RunIsSafe(cap, clock, steps);
    var w := After(cap, clock, steps);
    NumbersUnique(w);
    LoadSpec(w.disk, names, cap);
  }

  /**
   Nothing is lost and nothing doubled: at every moment an event whose write completed, and which
   was neither shed nor refused, is stored by the server or is in the queue a restart would
   rebuild (and in this process's queue); and the server holds one event for each number, one
   that was handed out.
   */
  lemma NothingIsLostOrDoubled(cap: nat, clock: int, steps: seq<Step>, names: seq<Sid>)
    requires Legal(Fresh(cap, clock), steps) && Careful(Fresh(cap, clock), steps)
    requires Listing(After(cap, clock, steps).disk, names)
    ensures var w := After(cap, clock, steps);
            && (forall e :: e in w.done && e !in w.shed && e !in w.refused && e !in w.stored
                            ==> e in Load(w.disk, names, cap).queue && e in w.mem.queue)
            && (forall a, b :: a in w.stored && b in w.stored && SameKey(a, b) ==> a == b)
            && w.stored <= w.handed
  {
    hide Run, Legal, Careful, Load, InOrder, GapQuiet, PhaseCovers, Acks, Closed, BatchesClosed, BytesCover, Covered;
    RunIsSafe(cap, clock, steps);
    var w := After(cap, clock, steps);
    NumbersUnique(w);
    LoadSpec(w.disk, names, cap);
    DoneNumbers(w);
    forall e | e in Live(w) - w.stored ensures e in Load(w.disk, names, cap).queue {
      LoggedAt(w.disk, e);
      OwedIsUnacked(w, e);
    }
  }

  /** What the server holds has no holes: everything still wanted below a stored number is stored too. */
  lemma StoredWithoutHoles(cap: nat, clock: int, steps: seq<Step>)
    requires Legal(Fresh(cap, clock), steps) && Careful(Fresh(cap, clock), steps)
    ensures var w := After(cap, clock, steps);
            forall s, e :: s in w.stored && e in Live(w) && e.sid == s.sid && e.num <= s.num ==> e in w.stored
  {
    hide Run, Legal, Careful, Numbers, InOrder, GapQuiet, PhaseCovers, Acks, BatchesClosed, BytesCover, Covered, Owing;
    RunIsSafe(cap, clock, steps);
  }

  lemma LoadCovers(d: Disk, names: seq<Sid>, cap: nat)
    ensures BytesCover(Load(d, names, cap))
  {
    hide Gather, Sorted;
    var m := Load(d, names, cap);
    forall sid ensures TrueSize(m.queue, sid) <= BytesOf(m, sid) {
      AddBytesIsTrueSize(m.queue, map[], sid);
    }
  }

  lemma StepCovers(w: World, s: Step)
    requires BytesCover(w.mem) && Enabled(w, s)
    ensures BytesCover(Apply(w, s).mem)
  {
    hide Append, Ack, Drop, MarkClosed, Load, BytesCover, Pending, Ingested, ShedBy;
    match s
    case AppendStep(sid, kind, size, data) => AppendCovers(w.mem, NextEvent(w.mem, sid, kind, w.clock, size, data));
    case CloseStep(sid) => MarkClosedCovers(w.mem, sid);
    case AckStep(acked) => AckCovers(w.mem, acked);
    case RefusalStep(ev) => DropCovers(w.mem, ev.sid, ev.num);
    case CrashStep(names) => LoadCovers(w.disk, names, w.mem.cap);
    case _ => SameBytes(w.mem, Apply(w, s).mem);
  }

  lemma {:induction false} RunCovers(w: World, steps: seq<Step>)
    requires BytesCover(w.mem) && Legal(w, steps)
    ensures BytesCover(Run(w, steps).mem)
    decreases |steps|
  {
    hide BytesCover, Apply, Enabled;
    if steps != [] {
      StepCovers(w, steps[0]);
      RunCovers(Apply(w, steps[0]), steps[1..]);
    }
  }

  /** In every run the tracked bytes of a session are never less than its queue takes. */
  lemma TrackedBytesCover(cap: nat, clock: int, steps: seq<Step>, sid: Sid)
    requires Legal(Fresh(cap, clock), steps)
    ensures var w := After(cap, clock, steps); TrueSize(w.mem.queue, sid) <= BytesOf(w.mem, sid)
  {
    RunCovers(Fresh(cap, clock), steps);
  }

  // ----- `forget`'s gap -----

  /** Between `forget`'s two writes the session's log is gone, so the meta file is all there is. */
  ghost predicate GapIsBare(w: World) {
    && (forall sid :: sid in w.gap ==> Log(w.disk, sid) == [])
    && (w.phase.RewritingLog? ==> w.phase.sid !in w.gap)
  }

  lemma StepKeepsGapBare(w: World, s: Step)
    requires GapIsBare(w) && Enabled(w, s)
    ensures GapIsBare(Apply(w, s))
  {
    hide Load, Append, ShedBy, Ack, Drop, MarkClosed, Ingested, Pending;
  }

  lemma {:induction false} RunKeepsGapBare(w: World, steps: seq<Step>)
    requires GapIsBare(w) && Legal(w, steps)
    ensures GapIsBare(Run(w, steps))
    decreases |steps|
  {
    hide GapIsBare, Apply, Enabled;
    if steps != [] {
      StepKeepsGapBare(w, steps[0]);
      RunKeepsGapBare(Apply(w, steps[0]), steps[1..]);
    }
  }

  /**
   Exactly when a restart would go on from too low a number: the session is in the gap and its
   meta file is older than a number it handed out.  Both are known before the log is removed.
   */
  lemma ReuseExactlyInGap(cap: nat, clock: int, steps: seq<Step>, names: seq<Sid>, sid: Sid)
    requires Legal(Fresh(cap, clock), steps) && Careful(Fresh(cap, clock), steps)
    requires Listing(After(cap, clock, steps).disk, names)
    ensures var w := After(cap, clock, steps);
            (exists e :: e in w.handed && e.sid == sid && e.num > MetaOf(Load(w.disk, names, cap), sid).lastSeq)
            <==> sid in w.gap && exists e :: e in w.handed && e.sid == sid && e.num > MetaFile(w.disk, sid).lastSeq
  {
    hide Run, Legal, Careful, Load, InOrder, GapQuiet, PhaseCovers, Acks, Posted, Closed, BatchesClosed, Owing,
         BytesCover, Numbers;
    RunIsSafe(cap, clock, steps);
    RunKeepsGapBare(Fresh(cap, clock), steps);
    var w := After(cap, clock, steps);
    LoadSpec(w.disk, names, cap);
    assert MetaOf(Load(w.disk, names, cap), sid).lastSeq == HighWater(w.disk, sid);
    assert sid in w.gap ==> HighWater(w.disk, sid) == MetaFile(w.disk, sid).lastSeq;
  }
}

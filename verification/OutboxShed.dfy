/**
 What `shed` and the tracked bytes of the outbox promise (connector/src/outbox.ts).
 */
module OutboxShed {
  import opened OutboxQueue

  function SizeOf(q: seq<Event>): (n: nat) {
    if q == [] then 0 else q[0].size + SizeOf(q[1..])
  }

  predicate Droppable(e: Event, sid: Sid) {
    e.sid == sid && e.kind in DROPPABLE_TYPES
  }

  /** The droppable events of a session, in order. */
  function Droppables(q: seq<Event>, sid: Sid): (r: seq<Event>) {
    if q == [] then [] else (if Droppable(q[0], sid) then [q[0]] else []) + Droppables(q[1..], sid)
  }

  /** Everything else, in order. */
  function Others(q: seq<Event>, sid: Sid): (r: seq<Event>) {
    if q == [] then [] else (if Droppable(q[0], sid) then [] else [q[0]]) + Others(q[1..], sid)
  }

  /**
   Oldest first, and no further than needed: there is a point `cut` in the queue before which
   every droppable event of the session goes and nothing else does, and after which everything
   stays; the scan got there still over the cap, and either fits now or has no more to drop.
   */
  ghost predicate ShedUpTo(q: seq<Event>, sid: Sid, total: int, cap: nat, s: Scan, cut: nat)
    requires cut <= |q|
  {
    && s.dropped == Droppables(q[..cut], sid)
    && s.keep == Others(q[..cut], sid) + q[cut..]
    && s.total == total - SizeOf(s.dropped)
    && (cut < |q| ==> s.total <= cap)
    && (cut > 0 ==> total > cap)
    && (cut > 0 ==> s.total + (if Droppable(q[cut - 1], sid) then q[cut - 1].size else 0) > cap)
  }

  lemma {:induction false} ShedsOldestFirst(q: seq<Event>, sid: Sid, total: int, cap: nat) returns (cut: nat)
    ensures cut <= |q|
    ensures ShedUpTo(q, sid, total, cap, ShedScan(q, sid, total, cap), cut)
  {
    if q == [] || total <= cap {
      cut := 0;
      NothingShed(q, sid, total, cap);
      assert q[..0] == [];
    } else {
      var t := if Droppable(q[0], sid) then total - q[0].size else total;
      var rest := ShedsOldestFirst(q[1..], sid, t, cap);
      cut := rest + 1;
      ShedUpToCons(q, sid, total, cap, ShedScan(q[1..], sid, t, cap), rest);
    }
  }

  lemma ShedUpToCons(q: seq<Event>, sid: Sid, total: int, cap: nat, s: Scan, rest: nat)
    requires q != [] && total > cap && rest < |q|
    requires ShedUpTo(q[1..], sid, if Droppable(q[0], sid) then total - q[0].size else total, cap, s, rest)
    ensures ShedUpTo(q, sid, total, cap,
                     if Droppable(q[0], sid) then s.(dropped := [q[0]] + s.dropped)
                     else s.(keep := [q[0]] + s.keep), rest + 1)
  {
    assert q[..rest + 1] == [q[0]] + q[1..][..rest];
    assert q[rest + 1..] == q[1..][rest..];
    assert rest > 0 ==> q[rest] == q[1..][rest - 1];
  }

  /** A scan that starts within the cap drops nothing. */
  lemma {:induction false} NothingShed(q: seq<Event>, sid: Sid, total: int, cap: nat)
    requires total <= cap || q == []
    ensures ShedScan(q, sid, total, cap) == Scan(q, total, [])
  {
    if q != [] {
      NothingShed(q[1..], sid, total, cap);
    }
  }

  /** Shedding splits the queue: every event stays or goes, once each. */
  lemma {:induction false} ShedPartition(q: seq<Event>, sid: Sid, total: int, cap: nat)
    ensures var s := ShedScan(q, sid, total, cap);
            && multiset(s.keep) + multiset(s.dropped) == multiset(q)
            && (forall e :: e in s.dropped ==> Droppable(e, sid))
  {
    if q != [] {
      var goes := q[0].sid == sid && total > cap && q[0].kind in DROPPABLE_TYPES;
      ShedPartition(q[1..], sid, if goes then total - q[0].size else total, cap);
      assert q == [q[0]] + q[1..];
    }
  }

  lemma ShedMembers(q: seq<Event>, sid: Sid, total: int, cap: nat, e: Event)
    ensures var s := ShedScan(q, sid, total, cap); e in q <==> e in s.keep || e in s.dropped
  {
    ShedPartition(q, sid, total, cap);
    var s := ShedScan(q, sid, total, cap);
    assert e in q <==> e in multiset(q);
    assert e in s.keep <==> e in multiset(s.keep);
    assert e in s.dropped <==> e in multiset(s.dropped);
  }

  lemma {:induction false} ShedOrdered(q: seq<Event>, sid: Sid, total: int, cap: nat)
    requires Ordered(q)
    ensures Ordered(ShedScan(q, sid, total, cap).keep)
  {
    if q != [] {
      var goes := q[0].sid == sid && total > cap && q[0].kind in DROPPABLE_TYPES;
      var t := if goes then total - q[0].size else total;
      ShedOrdered(q[1..], sid, t, cap);
      if !goes {
        var keep := ShedScan(q[1..], sid, t, cap).keep;
        forall x | x in keep && x.sid == q[0].sid ensures q[0].num <= x.num {
          ShedMembers(q[1..], sid, t, cap, x);
        }
        OrderedCons(q[0], keep);
      }
    }
  }

  /** What is left of `total` is what was there less what was dropped, and only this session's bytes changed. */
  lemma {:induction false} ShedSizes(q: seq<Event>, sid: Sid, total: int, cap: nat, other: Sid)
    ensures var s := ShedScan(q, sid, total, cap);
            && s.total - total == TrueSize(s.keep, sid) - TrueSize(q, sid)
            && (other != sid ==> TrueSize(s.keep, other) == TrueSize(q, other))
  {
    if q != [] {
      var goes := q[0].sid == sid && total > cap && q[0].kind in DROPPABLE_TYPES;
      ShedSizes(q[1..], sid, if goes then total - q[0].size else total, cap, other);
    }
  }

  /** After the scan the session fits, or holds nothing that may be dropped. */
  lemma {:induction false} ShedFitsOrKeepsOnlyOthers(q: seq<Event>, sid: Sid, total: int, cap: nat)
    ensures var s := ShedScan(q, sid, total, cap);
            s.total <= cap || forall e :: e in s.keep ==> !Droppable(e, sid)
  {
    if q != [] {
      var goes := q[0].sid == sid && total > cap && q[0].kind in DROPPABLE_TYPES;
      var t := if goes then total - q[0].size else total;
      ShedFitsOrKeepsOnlyOthers(q[1..], sid, t, cap);
      ShedSizes(q[1..], sid, t, cap, sid);
      if total <= cap {
        NothingShed(q, sid, total, cap);
      }
    }
  }

  // ----- the tracked bytes -----

  /** The tracked bytes of every session are at least what its queued events take. */
  ghost predicate BytesCover(m: Mem) {
    forall sid :: TrueSize(m.queue, sid) <= BytesOf(m, sid)
  }

  lemma {:induction false} TrueSizeOfAppend(q: seq<Event>, e: Event, sid: Sid)
    ensures TrueSize(q + [e], sid) == TrueSize(q, sid) + if e.sid == sid then e.size else 0
  {
    if q == [] {
      assert q + [e] == [e];
    } else {
      assert (q + [e])[1..] == q[1..] + [e];
      TrueSizeOfAppend(q[1..], e, sid);
    }
  }

  lemma {:induction false} NoneNoBytes(q: seq<Event>, sid: Sid)
    requires Count(q, sid) == 0
    ensures TrueSize(q, sid) == 0
  {
    if q != [] {
      NoneNoBytes(q[1..], sid);
    }
  }

  lemma ShedCovers(m: Mem, sid: Sid)
    requires BytesCover(m)
    ensures BytesCover(Shed(m, sid))
  {
    forall other ensures TrueSize(Shed(m, sid).queue, other) <= BytesOf(Shed(m, sid), other) {
      ShedSizes(m.queue, sid, BytesOf(m, sid), m.cap, other);
      assert TrueSize(m.queue, other) <= BytesOf(m, other);
      assert TrueSize(m.queue, sid) <= BytesOf(m, sid);
    }
  }

  /** After an append the tracked bytes cover every queue, and the session fits or has nothing left to drop. */
  lemma AppendCovers(m: Mem, ev: Event)
    requires BytesCover(m)
    ensures var m' := Append(m, ev);
            && BytesCover(m')
            && (BytesOf(m', ev.sid) <= m.cap || forall e :: e in m'.queue ==> !Droppable(e, ev.sid))
  {
    var e1 := Enqueued(m, ev);
    forall sid ensures TrueSize(e1.queue, sid) <= BytesOf(e1, sid) {
      TrueSizeOfAppend(m.queue, ev, sid);
      assert TrueSize(m.queue, sid) <= BytesOf(m, sid);
    }
    if BytesOf(e1, ev.sid) > m.cap {
      ShedCovers(e1, ev.sid);
      ShedFitsOrKeepsOnlyOthers(e1.queue, ev.sid, BytesOf(e1, ev.sid), m.cap);
      ShedsNothingOrCounts(e1, ev.sid);
    }
  }

  /** A scan that drops nothing keeps the whole queue and the total. */
  lemma ShedsNothingOrCounts(m: Mem, sid: Sid)
    ensures var s := ShedScan(m.queue, sid, BytesOf(m, sid), m.cap);
            s.dropped == [] ==> s.keep == m.queue && s.total == BytesOf(m, sid)
  {
    var cut := ShedsOldestFirst(m.queue, sid, BytesOf(m, sid), m.cap);
    if Droppables(m.queue[..cut], sid) == [] {
      AllOthers(m.queue[..cut], sid);
      assert m.queue == m.queue[..cut] + m.queue[cut..];
    }
  }

  lemma {:induction false} AllOthers(q: seq<Event>, sid: Sid)
    requires Droppables(q, sid) == []
    ensures Others(q, sid) == q
  {
    if q != [] {
      AllOthers(q[1..], sid);
    }
  }

  lemma SettleCovers(m: Mem, sid: Sid, upTo: int)
    requires BytesCover(m)
    ensures BytesCover(Settle(m, sid, upTo))
    ensures Settle(m, sid, upTo).queue == m.queue
  {
    if Count(m.queue, sid) == 0 {
      NoneNoBytes(m.queue, sid);
    }
    forall s ensures TrueSize(m.queue, s) <= BytesOf(Settle(m, sid, upTo), s) {
      assert TrueSize(m.queue, s) <= BytesOf(m, s);
    }
  }

  lemma {:induction false} SettleAllCovers(m: Mem, sids: seq<Sid>, acked: map<Sid, int>)
    requires BytesCover(m)
    ensures BytesCover(SettleAll(m, sids, acked))
    decreases |sids|
  {
    if sids != [] {
      SettleCovers(m, sids[0], UpTo(acked, sids[0]));
      SettleAllCovers(Settle(m, sids[0], UpTo(acked, sids[0])), sids[1..], acked);
    }
  }

  function Get(bytes: map<Sid, int>, sid: Sid): (n: int) {
    if sid in bytes then bytes[sid] else 0
  }

  /** Lowering the tracked bytes event by event takes off no more than leaves the queue. */
  lemma {:induction false} AckBytesCover(q: seq<Event>, acked: map<Sid, int>, bytes: map<Sid, int>, sid: Sid)
    ensures Get(AckBytes(q, acked, bytes), sid) >= Get(bytes, sid) - TrueSize(q, sid) + TrueSize(AckKeep(q, acked), sid)
  {
    if q != [] {
      if IsAcked(q[0], acked) {
        AckBytesCover(q[1..], acked, bytes[q[0].sid := Max(0, Get(bytes, q[0].sid) - q[0].size)], sid);
      } else {
        AckBytesCover(q[1..], acked, bytes, sid);
      }
    }
  }

  lemma AckCovers(m: Mem, acked: map<Sid, int>)
    requires BytesCover(m)
    ensures BytesCover(Ack(m, acked))
  {
    var m' := m.(queue := AckKeep(m.queue, acked), bytes := AckBytes(m.queue, acked, m.bytes));
    forall sid ensures TrueSize(m'.queue, sid) <= BytesOf(m', sid) {
      AckBytesCover(m.queue, acked, m.bytes, sid);
      assert TrueSize(m.queue, sid) <= BytesOf(m, sid);
    }
    SettleAllCovers(m', Touched(m.queue, acked, {}), acked);
  }

  lemma {:induction false} DropKeepSize(q: seq<Event>, sid: Sid, num: nat, other: Sid)
    ensures TrueSize(DropKeep(q, sid, num), other) <= TrueSize(q, other)
  {
    if q != [] {
      DropKeepSize(q[1..], sid, num, other);
    }
  }

  /** A refused event's bytes stay counted: the tracked total may only be too high. */
  lemma DropCovers(m: Mem, sid: Sid, num: nat)
    requires BytesCover(m)
    ensures BytesCover(Drop(m, sid, num))
  {
    var keep := DropKeep(m.queue, sid, num);
    if |keep| != |m.queue| {
      var m' := m.(queue := keep, ops := m.ops + [Rewrite(sid)]);
      forall s ensures TrueSize(m'.queue, s) <= BytesOf(m', s) {
        DropKeepSize(m.queue, sid, num, s);
        assert TrueSize(m.queue, s) <= BytesOf(m, s);
      }
      SettleCovers(m', sid, MetaOf(m', sid).acked);
    }
  }

  lemma MarkClosedCovers(m: Mem, sid: Sid)
    requires BytesCover(m)
    ensures BytesCover(MarkClosed(m, sid))
  {
    if !Has(m.queue, sid) {
      CountSpec(m.queue, sid);
      NoneNoBytes(m.queue, sid);
    }
    forall s ensures TrueSize(m.queue, s) <= BytesOf(MarkClosed(m, sid), s) {
      assert TrueSize(m.queue, s) <= BytesOf(m, s);
    }
  }
}

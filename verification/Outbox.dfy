/**
 The outbox itself (connector/src/outbox.ts): an object whose methods work on its queue, its
 numbers and its byte counts in place, step by step as the source does.  Each method is proved
 to do to the object what the function of the same name in `OutboxQueue` does to its value.
 */
module Outboxes {
  import opened OutboxLoad
  import Q = OutboxQueue

  type Sid = Q.Sid
  type Event = Q.Event
  type Meta = Q.Meta

  class Outbox {
    const cap: nat
    var queue: seq<Event>
    var meta: map<Sid, Meta>
    var bytes: map<Sid, int>
    var closed: set<Sid>
    var unwritten: set<Event>
    var ops: seq<Q.Op>

    function View(): (m: Q.Mem)
      reads this
    {
      Q.Mem(cap, queue, meta, bytes, closed, unwritten, ops)
    }

    /** `load`: rebuild the queue and the numbers from the directory. */
    constructor (d: Disk, names: seq<Sid>, maxBytes: nat)
      ensures View() == Load(d, names, maxBytes)
    {
      cap := maxBytes;
      closed, unwritten, ops := {}, {}, [];
      var numbers, loaded := LoadAll(d, names);
      meta := numbers;
      queue := Sorted(loaded);
      var counted := CountBytes(Sorted(loaded));
      bytes := counted;
    }

    /** Drop the oldest droppable events of a session until it is back under its cap. */
    method Shed(sid: Sid)
      modifies this
      ensures View() == Q.Shed(old(View()), sid)
    {
      var keep, total, dropped := ShedLoop(queue, sid, if sid in bytes then bytes[sid] else 0, cap);
      unwritten := unwritten - set e | e in dropped;
      if |dropped| == 0 {
        return;
      }
      queue := keep;
      bytes := bytes[sid := total];
      ops := ops + [Q.Rewrite(sid)];
    }

    /** Assign the next number, ask for the line to be written, queue the event; shed if the session is over its cap. */
    method Append(sid: Sid, kind: string, ts: int, size: nat, data: string) returns (ev: Event)
      modifies this
      ensures ev == Q.NextEvent(old(View()), sid, kind, ts, size, data)
      ensures View() == Q.Append(old(View()), ev)
    {
      var m := if sid in meta then meta[sid] else Q.Meta(0, 0);
      ev := Q.Event(sid, m.lastSeq + 1, kind, ts, size, data);
      meta := meta[sid := m.(lastSeq := ev.num)];
      unwritten := unwritten + {ev};
      ops := ops + [Q.Persist(ev)];
      queue := queue + [ev];
      bytes := bytes[sid := (if sid in bytes then bytes[sid] else 0) + size];
      assert View() == Q.Enqueued(old(View()), ev);
      if bytes[sid] > cap {
        Shed(sid);
      }
    }

    /** The oldest events not yet acknowledged, up to the first not yet written: a front of the queue, all written. */
    method Pending(max: nat) returns (out: seq<Event>)
      ensures out <= queue && |out| <= max
      ensures forall e :: e in out ==> e !in unwritten
      ensures |out| < max && |out| < |queue| ==> queue[|out|] in unwritten
      ensures out == Q.Pending(queue, unwritten, max)
    {
      out := [];
      for i := 0 to |queue|
        invariant out == queue[..i] && i <= max
        invariant forall e :: e in out ==> e !in unwritten
        invariant Q.Pending(queue, unwritten, max) == out + Q.Pending(queue[i..], unwritten, max - i)
      {
        var ev := queue[i];
        assert queue[i..][1..] == queue[i + 1..];
        if |out| >= max || ev in unwritten {
          return;
        }
        out := out + [ev];
      }
    }

    method Forget(sid: Sid)
      modifies this
      ensures View() == Q.Forget(old(View()), sid)
    {
      bytes := bytes - {sid};
      closed := closed - {sid};
      ops := ops + [Q.Forgetting(sid)];
    }

    method Settle(sid: Sid, upTo: int)
      modifies this
      ensures View() == Q.Settle(old(View()), sid, upTo)
    {
      var m := if sid in meta then meta[sid] else Q.Meta(0, 0);
      m := m.(acked := if upTo > m.acked then upTo else m.acked);
      meta := meta[sid := m];
      var left := 0;
      for i := 0 to |queue|
        invariant View() == old(View()).(meta := meta)
        invariant Q.Count(queue, sid) == left + Q.Count(queue[i..], sid)
      {
        assert queue[i..][1..] == queue[i + 1..];
        if queue[i].sid == sid {
          left := left + 1;
        }
      }
      if left == 0 {
        bytes := bytes[sid := 0];
        if sid in closed {
          Forget(sid);
          return;
        }
      }
      var rewrite := left > 0 && (2 * left < |queue| || m.acked > 1000);
      ops := ops + [Q.Settling(sid, rewrite)];
    }

    /** The server stored everything up to `acked[session]`. */
    method Ack(acked: map<Sid, int>)
      modifies this
      ensures View() == Q.Ack(old(View()), acked)
    {
      var touched;
      queue, bytes, touched := AckLoop(queue, acked, bytes);
      ghost var m := View();
      for j := 0 to |touched|
        invariant Q.SettleAll(m, touched, acked) == Q.SettleAll(View(), touched[j..], acked)
      {
        assert touched[j..][1..] == touched[j + 1..];
        Settle(touched[j], Q.UpTo(acked, touched[j]));
      }
    }

    /** An event the server refused for good: forget it. */
    method Drop(sid: Sid, num: nat)
      modifies this
      ensures View() == Q.Drop(old(View()), sid, num)
    {
      var before := |queue|;
      var kept := DropLoop(queue, sid, num);
      if |kept| == before {
        return;
      }
      queue := kept;
      ops := ops + [Q.Rewrite(sid)];
      Settle(sid, if sid in meta then meta[sid].acked else 0);
    }

    method MarkClosed(sid: Sid)
      modifies this
      ensures View() == Q.MarkClosed(old(View()), sid)
    {
      closed := closed + {sid};
      if !exists i :: 0 <= i < |queue| && queue[i].sid == sid {
        Forget(sid);
      }
    }
  }

  /** The loop over one log's lines in `load`. */
  method ScanLog(log: seq<Event>, start: Meta) returns (lastSeq: nat, some: seq<Event>)
    ensures lastSeq == Highest(log, start.lastSeq)
    ensures some == Unacked(log, start.acked)
  {
    lastSeq, some := start.lastSeq, [];
    for j := 0 to |log|
      invariant Highest(log, start.lastSeq) == Highest(log[j..], lastSeq)
      invariant Unacked(log, start.acked) == some + Unacked(log[j..], start.acked)
    {
      assert log[j..][0] == log[j] && log[j..][1..] == log[j + 1..];
      lastSeq := if log[j].num > lastSeq then log[j].num else lastSeq;
      if log[j].num > start.acked {
        some := some + [log[j]];
      }
    }
  }

  /** One round of the outer loop of `load`: the session's numbers, and its logged events not yet acknowledged. */
  method LoadSession(d: Disk, sid: Sid) returns (meta: Meta, some: seq<Event>)
    ensures meta == NumbersOf(d, sid)
    ensures some == Reloaded(d, sid)
  {
    meta := MetaFile(d, sid);
    var lastSeq;
    lastSeq, some := ScanLog(Log(d, sid), meta);
    meta := meta.(lastSeq := lastSeq);
  }

  /** The outer loop of `load`. */
  method LoadAll(d: Disk, names: seq<Sid>) returns (numbers: map<Sid, Meta>, loaded: seq<Event>)
    ensures numbers == map s | s in names :: NumbersOf(d, s)
    ensures loaded == Gather(d, names)
  {
    hide NumbersOf, Reloaded;
    numbers, loaded := map[], [];
    for k := 0 to |names|
      invariant numbers == map s | s in names[..k] :: NumbersOf(d, s)
      invariant Gather(d, names) == loaded + Gather(d, names[k..])
    {
      var meta, some := LoadSession(d, names[k]);
      assert names[k..][1..] == names[k + 1..];
      assert names[..k + 1] == names[..k] + [names[k]];
      loaded := loaded + some;
      numbers := numbers[names[k] := meta];
    }
    assert names[..|names|] == names;
  }

  /** The last loop of `load`. */
  method CountBytes(queue: seq<Event>) returns (bytes: map<Sid, int>)
    ensures bytes == AddBytes(queue, map[])
  {
    bytes := map[];
    for i := 0 to |queue|
      invariant AddBytes(queue, map[]) == AddBytes(queue[i..], bytes)
    {
      var ev := queue[i];
      assert queue[i..][1..] == queue[i + 1..];
      bytes := bytes[ev.sid := (if ev.sid in bytes then bytes[ev.sid] else 0) + ev.size];
    }
  }

  lemma ShedScanFrom(queue: seq<Event>, i: nat, sid: Sid, total: int, cap: nat)
    requires i <= |queue|
    ensures Q.ShedScan(queue[i..], sid, total, cap) ==
            if i == |queue| then Q.Scan([], total, [])
            else if queue[i].sid == sid && total > cap && queue[i].kind in Q.DROPPABLE_TYPES then
              var r := Q.ShedScan(queue[i + 1..], sid, total - queue[i].size, cap);
              r.(dropped := [queue[i]] + r.dropped)
            else
              var r := Q.ShedScan(queue[i + 1..], sid, total, cap);
              r.(keep := [queue[i]] + r.keep)
  {
    if i < |queue| {
      assert queue[i..][1..] == queue[i + 1..];
    }
  }

  /** The loop of `shed`. */
  method ShedLoop(queue: seq<Event>, sid: Sid, tracked: int, cap: nat)
    returns (keep: seq<Event>, total: int, dropped: seq<Event>)
    ensures Q.Scan(keep, total, dropped) == Q.ShedScan(queue, sid, tracked, cap)
  {
    hide Q.ShedScan;
    keep, total, dropped := [], tracked, [];
    ghost var all := Q.ShedScan(queue, sid, tracked, cap);
    assert queue[0..] == queue;
    for i := 0 to |queue|
      invariant all.keep == keep + Q.ShedScan(queue[i..], sid, total, cap).keep
      invariant all.total == Q.ShedScan(queue[i..], sid, total, cap).total
      invariant all.dropped == dropped + Q.ShedScan(queue[i..], sid, total, cap).dropped
    {
      ShedScanFrom(queue, i, sid, total, cap);
      var ev := queue[i];
      if ev.sid == sid && total > cap && ev.kind in Q.DROPPABLE_TYPES {
        total := total - ev.size;
        dropped := dropped + [ev];
      } else {
        keep := keep + [ev];
      }
    }
    ShedScanFrom(queue, |queue|, sid, total, cap);
  }

  lemma AckFrom(queue: seq<Event>, i: nat, acked: map<Sid, int>, bytes: map<Sid, int>, seen: set<Sid>)
    requires i < |queue|
    ensures var ev, rest := queue[i], queue[i + 1..];
            var taken := Q.IsAcked(ev, acked);
            && Q.AckKeep(queue[i..], acked) == (if taken then [] else [ev]) + Q.AckKeep(rest, acked)
            && Q.AckBytes(queue[i..], acked, bytes)
               == Q.AckBytes(rest, acked,
                             if taken
                             then bytes[ev.sid := Q.Max(0, (if ev.sid in bytes then bytes[ev.sid] else 0) - ev.size)]
                             else bytes)
            && Q.Touched(queue[i..], acked, seen)
               == if taken && ev.sid !in seen then [ev.sid] + Q.Touched(rest, acked, seen + {ev.sid})
                  else Q.Touched(rest, acked, seen)
  {
    assert queue[i..][1..] == queue[i + 1..];
  }

  /** The `filter` of `ack`, with what its callback counts. */
  method AckLoop(queue: seq<Event>, acked: map<Sid, int>, tracked: map<Sid, int>)
    returns (kept: seq<Event>, bytes: map<Sid, int>, touched: seq<Sid>)
    ensures kept == Q.AckKeep(queue, acked)
    ensures bytes == Q.AckBytes(queue, acked, tracked)
    ensures touched == Q.Touched(queue, acked, {})
  {
    kept, bytes, touched := [], tracked, [];
    ghost var seen: set<Sid> := {};
    assert queue[0..] == queue;
    for i := 0 to |queue|
      invariant Q.AckKeep(queue, acked) == kept + Q.AckKeep(queue[i..], acked)
      invariant Q.AckBytes(queue, acked, tracked) == Q.AckBytes(queue[i..], acked, bytes)
      invariant Q.Touched(queue, acked, {}) == touched + Q.Touched(queue[i..], acked, seen)
      invariant forall s :: s in seen <==> s in touched
    {
      hide Q.AckKeep, Q.AckBytes, Q.Touched;
      AckFrom(queue, i, acked, bytes, seen);
      var ev := queue[i];
      if ev.sid in acked && ev.num <= acked[ev.sid] {
        if ev.sid !in touched {
          touched := touched + [ev.sid];
          seen := seen + {ev.sid};
        }
        bytes := bytes[ev.sid := Q.Max(0, (if ev.sid in bytes then bytes[ev.sid] else 0) - ev.size)];
      } else {
        kept := kept + [ev];
      }
    }
  }

  /** The `filter` of `drop`. */
  method DropLoop(queue: seq<Event>, sid: Sid, num: nat) returns (kept: seq<Event>)
    ensures kept == Q.DropKeep(queue, sid, num)
  {
    kept := [];
    for i := 0 to |queue|
      invariant Q.DropKeep(queue, sid, num) == kept + Q.DropKeep(queue[i..], sid, num)
    {
      assert queue[i..][1..] == queue[i + 1..];
      if !(queue[i].sid == sid && queue[i].num == num) {
        kept := kept + [queue[i]];
      }
    }
  }
}

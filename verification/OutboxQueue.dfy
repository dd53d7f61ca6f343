/**
 The memory of the connector's outbox (connector/src/outbox.ts): the queue, the numbers, the
 tracked bytes and the disk operations asked for, as values, with one function per method.
 `Outbox.dfy` holds the object that works in place; `OutboxRun.dfy` puts this memory together
 with the disk and the server.
 */
module OutboxQueue {

  type Sid = string

  /** `size` is the length of the event's JSON line. */
  datatype Event = Event(sid: Sid, num: nat, kind: string, ts: int, size: nat, data: string)

  datatype Meta = Meta(lastSeq: nat, acked: nat)

  /** An operation waiting in the `DiskQueue`. */
  datatype Op =
    | Persist(ev: Event)
    | Rewrite(sid: Sid)
    | Settling(sid: Sid, rewrite: bool)
    | Forgetting(sid: Sid)

  datatype Mem = Mem(cap: nat, queue: seq<Event>, meta: map<Sid, Meta>, bytes: map<Sid, int>,
                     closed: set<Sid>, unwritten: set<Event>, ops: seq<Op>)

  const DROPPABLE_TYPES: set<string> :=
    {"agent_message_chunk", "agent_thought_chunk", "tool_call_update", "usage_update", "plan"}

  function MetaAt(meta: map<Sid, Meta>, sid: Sid): (r: Meta) {
    if sid in meta then meta[sid] else Meta(0, 0)
  }

  function MetaOf(m: Mem, sid: Sid): (r: Meta) {
    MetaAt(m.meta, sid)
  }

  function BytesOf(m: Mem, sid: Sid): (r: int) {
    if sid in m.bytes then m.bytes[sid] else 0
  }

  function Max(a: int, b: int): (r: int) {
    if a >= b then a else b
  }

  predicate Has(q: seq<Event>, sid: Sid) {
    exists i :: 0 <= i < |q| && q[i].sid == sid
  }

  /** How many events of a session a queue holds. */
  function Count(q: seq<Event>, sid: Sid): (n: nat) {
    if q == [] then 0 else (if q[0].sid == sid then 1 else 0) + Count(q[1..], sid)
  }

  lemma {:induction false} CountSpec(q: seq<Event>, sid: Sid)
    ensures Count(q, sid) == 0 <==> !Has(q, sid)
  {
    if q != [] {
      CountSpec(q[1..], sid);
      if Has(q[1..], sid) {
        var i :| 0 <= i < |q[1..]| && q[1..][i].sid == sid;
        assert q[i + 1].sid == sid;
      }
    }
  }

  /** The bytes a session's queued events really take. */
  function TrueSize(q: seq<Event>, sid: Sid): (n: nat) {
    if q == [] then 0 else (if q[0].sid == sid then q[0].size else 0) + TrueSize(q[1..], sid)
  }

  /** Within a session the queue is in number order. */
  ghost predicate Ordered(q: seq<Event>) {
    forall i, j :: 0 <= i < j < |q| && q[i].sid == q[j].sid ==> q[i].num <= q[j].num
  }

  lemma OrderedCons(e: Event, q: seq<Event>)
    requires Ordered(q)
    requires forall x :: x in q && x.sid == e.sid ==> e.num <= x.num
    ensures Ordered([e] + q)
  {
    forall i, j | 0 <= i < j < |q| + 1 && ([e] + q)[i].sid == ([e] + q)[j].sid
      ensures ([e] + q)[i].num <= ([e] + q)[j].num
    {
      if i == 0 {
        assert q[j - 1] in q;
      }
    }
  }

  // ----- shedding -----

  datatype Scan = Scan(keep: seq<Event>, total: int, dropped: seq<Event>)

  /** The loop of `shed`: which events stay, what is left of `total`, which go. */
  function ShedScan(q: seq<Event>, sid: Sid, total: int, cap: nat): (r: Scan) {
    if q == [] then Scan([], total, [])
    else if q[0].sid == sid && total > cap && q[0].kind in DROPPABLE_TYPES then
      var r := ShedScan(q[1..], sid, total - q[0].size, cap);
      r.(dropped := [q[0]] + r.dropped)
    else
      var r := ShedScan(q[1..], sid, total, cap);
      r.(keep := [q[0]] + r.keep)
  }

  function Shed(m: Mem, sid: Sid): (r: Mem) {
    var s := ShedScan(m.queue, sid, BytesOf(m, sid), m.cap);
    if s.dropped == [] then m
    else m.(queue := s.keep, bytes := m.bytes[sid := s.total],
            unwritten := m.unwritten - (set e | e in s.dropped),
            ops := m.ops + [Rewrite(sid)])
  }

  // ----- the methods -----

  function NextEvent(m: Mem, sid: Sid, kind: string, ts: int, size: nat, data: string): (ev: Event) {
    Event(sid, MetaOf(m, sid).lastSeq + 1, kind, ts, size, data)
  }

  /** `append` before it looks at the cap. */
  function Enqueued(m: Mem, ev: Event): (r: Mem) {
    m.(meta := m.meta[ev.sid := MetaOf(m, ev.sid).(lastSeq := ev.num)],
    unwritten := m.unwritten + {ev},
    ops := m.ops + [Persist(ev)],
    queue := m.queue + [ev],
    bytes := m.bytes[ev.sid := BytesOf(m, ev.sid) + ev.size])
  }

  function Append(m: Mem, ev: Event): (r: Mem) {
    var m' := Enqueued(m, ev);
    if BytesOf(m', ev.sid) > m.cap then Shed(m', ev.sid) else m'
  }

  function Pending(q: seq<Event>, unwritten: set<Event>, max: nat): (r: seq<Event>) {
    if max == 0 || q == [] || q[0] in unwritten then []
    else [q[0]] + Pending(q[1..], unwritten, max - 1)
  }

  /** What is handed out is a front of the queue with nothing unwritten in it, and as much of that as `max` allows. */
  lemma {:induction false} PendingSpec(q: seq<Event>, unwritten: set<Event>, max: nat)
    ensures var r := Pending(q, unwritten, max);
            && r <= q && |r| <= max
            && (forall e :: e in r ==> e !in unwritten)
            && (|r| < max && |r| < |q| ==> q[|r|] in unwritten)
  {
    if !(max == 0 || q == [] || q[0] in unwritten) {
      PendingSpec(q[1..], unwritten, max - 1);
    }
  }

  predicate IsAcked(e: Event, acked: map<Sid, int>) {
    e.sid in acked && e.num <= acked[e.sid]
  }

  /** The queue without what the server has stored. */
  function AckKeep(q: seq<Event>, acked: map<Sid, int>): (r: seq<Event>) {
    if q == [] then []
    else if IsAcked(q[0], acked) then AckKeep(q[1..], acked)
    else [q[0]] + AckKeep(q[1..], acked)
  }

  lemma {:induction false} AckKeepSpec(q: seq<Event>, acked: map<Sid, int>)
    ensures forall e :: e in AckKeep(q, acked) <==> e in q && !IsAcked(e, acked)
    ensures forall u :: !IsAcked(u, acked) ==> multiset(AckKeep(q, acked))[u] == multiset(q)[u]
  {
    if q != [] {
      AckKeepSpec(q[1..], acked);
      assert q == [q[0]] + q[1..];
    }
  }

  lemma {:induction false} AckKeepOrdered(q: seq<Event>, acked: map<Sid, int>)
    requires Ordered(q)
    ensures Ordered(AckKeep(q, acked))
  {
    if q != [] {
      AckKeepOrdered(q[1..], acked);
      AckKeepSpec(q[1..], acked);
      OrderedCons(q[0], AckKeep(q[1..], acked));
    }
  }

  /** The tracked bytes as the callback of `filter` lowers them, one event at a time. */
  function AckBytes(q: seq<Event>, acked: map<Sid, int>, bytes: map<Sid, int>): (r: map<Sid, int>) {
    if q == [] then bytes
    else if IsAcked(q[0], acked) then
      var had := if q[0].sid in bytes then bytes[q[0].sid] else 0;
      AckBytes(q[1..], acked, bytes[q[0].sid := Max(0, had - q[0].size)])
    else AckBytes(q[1..], acked, bytes)
  }

  /** The sessions an acknowledgement removed something of, in the order they are met; `seen` are already listed. */
  function Touched(q: seq<Event>, acked: map<Sid, int>, seen: set<Sid>): (r: seq<Sid>) {
    if q == [] then []
    else if IsAcked(q[0], acked) && q[0].sid !in seen
    then [q[0].sid] + Touched(q[1..], acked, seen + {q[0].sid})
    else Touched(q[1..], acked, seen)
  }

  function Forget(m: Mem, sid: Sid): (r: Mem) {
    m.(bytes := m.bytes - {sid}, closed := m.closed - {sid}, ops := m.ops + [Forgetting(sid)])
  }

  function Settle(m: Mem, sid: Sid, upTo: int): (r: Mem) {
    var meta := MetaOf(m, sid);
    var acked: nat := if upTo > meta.acked then upTo else meta.acked;
    var m1 := m.(meta := m.meta[sid := meta.(acked := acked)]);
    var left := Count(m.queue, sid);
    if left == 0 && sid in m.closed then Forget(m1.(bytes := m.bytes[sid := 0]), sid)
    else
      var m2 := if left == 0 then m1.(bytes := m.bytes[sid := 0]) else m1;
      var rewrite := left > 0 && (2 * left < |m.queue| || acked > 1000);
      m2.(ops := m.ops + [Settling(sid, rewrite)])
  }

  function UpTo(acked: map<Sid, int>, sid: Sid): (n: int) {
    if sid in acked then acked[sid] else 0
  }

  function SettleAll(m: Mem, sids: seq<Sid>, acked: map<Sid, int>): (r: Mem)
    decreases |sids|
  {
    if sids == [] then m else SettleAll(Settle(m, sids[0], UpTo(acked, sids[0])), sids[1..], acked)
  }

  function Ack(m: Mem, acked: map<Sid, int>): (r: Mem) {
    var m' := m.(queue := AckKeep(m.queue, acked), bytes := AckBytes(m.queue, acked, m.bytes));
    SettleAll(m', Touched(m.queue, acked, {}), acked)
  }

  function DropKeep(q: seq<Event>, sid: Sid, num: nat): (r: seq<Event>) {
    if q == [] then []
    else if q[0].sid == sid && q[0].num == num then DropKeep(q[1..], sid, num)
    else [q[0]] + DropKeep(q[1..], sid, num)
  }

  lemma {:induction false} DropKeepLength(q: seq<Event>, sid: Sid, num: nat)
    ensures |DropKeep(q, sid, num)| <= |q|
    ensures |DropKeep(q, sid, num)| == |q| ==> DropKeep(q, sid, num) == q
  {
    if q != [] {
      DropKeepLength(q[1..], sid, num);
    }
  }

  lemma {:induction false} DropKeepSpec(q: seq<Event>, sid: Sid, num: nat)
    ensures forall e: Event :: e in DropKeep(q, sid, num) <==> e in q && !(e.sid == sid && e.num == num)
    ensures forall u: Event :: !(u.sid == sid && u.num == num) ==> multiset(DropKeep(q, sid, num))[u] == multiset(q)[u]
  {
    if q != [] {
      DropKeepSpec(q[1..], sid, num);
      assert q == [q[0]] + q[1..];
    }
  }

  lemma {:induction false} DropKeepOrdered(q: seq<Event>, sid: Sid, num: nat)
    requires Ordered(q)
    ensures Ordered(DropKeep(q, sid, num))
  {
    if q != [] {
      DropKeepOrdered(q[1..], sid, num);
      DropKeepSpec(q[1..], sid, num);
      OrderedCons(q[0], DropKeep(q[1..], sid, num));
    }
  }

  function Drop(m: Mem, sid: Sid, num: nat): (r: Mem) {
    var keep := DropKeep(m.queue, sid, num);
    if |keep| == |m.queue| then m
    else
      var m' := m.(queue := keep, ops := m.ops + [Rewrite(sid)]);
      Settle(m', sid, MetaOf(m', sid).acked)
  }

  function MarkClosed(m: Mem, sid: Sid): (r: Mem) {
    var m' := m.(closed := m.closed + {sid});
    if Has(m.queue, sid) then m' else Forget(m', sid)
  }

  /** The lines a rewrite of the session's log writes: its queued events whose lines are written. */
  function Mine(q: seq<Event>, sid: Sid, unwritten: set<Event>): (r: seq<Event>) {
    if q == [] then []
    else if q[0].sid == sid && q[0] !in unwritten then [q[0]] + Mine(q[1..], sid, unwritten)
    else Mine(q[1..], sid, unwritten)
  }

  lemma {:induction false} MineSpec(q: seq<Event>, sid: Sid, unwritten: set<Event>)
    ensures forall e :: e in Mine(q, sid, unwritten) <==> e in q && e.sid == sid && e !in unwritten
  {
    if q != [] {
      assert q == [q[0]] + q[1..];
      MineSpec(q[1..], sid, unwritten);
    }
  }
}

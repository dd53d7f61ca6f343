/**
 What the outbox keeps on disk, and `load`: how a new process rebuilds the queue and the numbers
 from it (connector/src/outbox.ts).
 */
module OutboxLoad {
  import opened OutboxQueue
  import opened OutboxShed

  /** One `.meta.json` and one `.jsonl` per session, either of which may be absent. */
  datatype Disk = Disk(metas: map<Sid, Meta>, logs: map<Sid, seq<Event>>)

  function MetaFile(d: Disk, sid: Sid): (r: Meta) {
    MetaAt(d.metas, sid)
  }

  function Log(d: Disk, sid: Sid): (r: seq<Event>) {
    if sid in d.logs then d.logs[sid] else []
  }

  /** The larger of the meta file's number and every number in the log. */
  function Highest(log: seq<Event>, lastSeq: nat): (n: nat) {
    if log == [] then lastSeq
    else Highest(log[1..], if log[0].num > lastSeq then log[0].num else lastSeq)
  }

  lemma {:induction false} HighestSpec(log: seq<Event>, lastSeq: nat)
    ensures var n := Highest(log, lastSeq);
            && n >= lastSeq
            && (forall e :: e in log ==> e.num <= n)
            && (n == lastSeq || exists e :: e in log && e.num == n)
  {
    if log != [] {
      assert log == [log[0]] + log[1..];
      assert log[0] in log;
      HighestSpec(log[1..], if log[0].num > lastSeq then log[0].num else lastSeq);
    }
  }

  function HighWater(d: Disk, sid: Sid): (n: nat)
    ensures n >= MetaFile(d, sid).lastSeq
    ensures forall e :: e in Log(d, sid) ==> e.num <= n
    ensures n == MetaFile(d, sid).lastSeq || exists e :: e in Log(d, sid) && e.num == n
  {
    HighestSpec(Log(d, sid), MetaFile(d, sid).lastSeq);
    Highest(Log(d, sid), MetaFile(d, sid).lastSeq)
  }

  function Unacked(log: seq<Event>, acked: nat): (r: seq<Event>) {
    if log == [] then []
    else if log[0].num > acked then [log[0]] + Unacked(log[1..], acked)
    else Unacked(log[1..], acked)
  }

  lemma {:induction false} UnackedSpec(log: seq<Event>, acked: nat)
    ensures forall e :: e in Unacked(log, acked) <==> e in log && e.num > acked
  {
    if log != [] {
      assert log == [log[0]] + log[1..];
      UnackedSpec(log[1..], acked);
    }
  }

  /** What one session's files give back. */
  function Reloaded(d: Disk, sid: Sid): (r: seq<Event>) {
    Unacked(Log(d, sid), MetaFile(d, sid).acked)
  }

  function Gather(d: Disk, names: seq<Sid>): (r: seq<Event>) {
    if names == [] then [] else Reloaded(d, names[0]) + Gather(d, names[1..])
  }

  // ----- the sort: by time, then by number; equal keys keep their order -----

  predicate Before(a: Event, b: Event) {
    a.ts < b.ts || (a.ts == b.ts && a.num <= b.num)
  }

  ghost predicate ByTime(q: seq<Event>) {
    forall i, j :: 0 <= i < j < |q| ==> Before(q[i], q[j])
  }

  /** Insert `e` ahead of the first event that must not precede it. */
  function Insert(e: Event, q: seq<Event>): (r: seq<Event>)
    ensures multiset(r) == multiset([e]) + multiset(q)
    ensures |r| == |q| + 1
  {
    if q == [] then [e]
    else if Before(e, q[0]) then
      assert multiset([e] + q) == multiset([e]) + multiset(q);
      [e] + q
    else
      assert q == [q[0]] + q[1..];
      [q[0]] + Insert(e, q[1..])
  }

  function Sorted(q: seq<Event>): (r: seq<Event>)
    ensures multiset(r) == multiset(q)
  {
    if q == [] then []
    else
      assert q == [q[0]] + q[1..];
      Insert(q[0], Sorted(q[1..]))
  }

  lemma {:induction false} InsertByTime(e: Event, q: seq<Event>)
    requires ByTime(q)
    ensures ByTime(Insert(e, q))
  {
    if q != [] && !Before(e, q[0]) {
      InsertByTime(e, q[1..]);
      var rest := Insert(e, q[1..]);
      forall x | x in rest ensures Before(q[0], x) {
        assert x in multiset(rest);
        if x != e {
          assert x in q[1..];
        }
      }
      assert forall j :: 0 <= j < |rest| ==> rest[j] in rest;
    }
  }

  lemma {:induction false} SortedByTime(q: seq<Event>)
    ensures ByTime(Sorted(q))
  {
    if q != [] {
      SortedByTime(q[1..]);
      InsertByTime(q[0], Sorted(q[1..]));
    }
  }

  // ----- load -----

  /** The last loop of `load`: the bytes of each queued event, added up by session. */
  function AddBytes(q: seq<Event>, bytes: map<Sid, int>): (r: map<Sid, int>) {
    if q == [] then bytes
    else AddBytes(q[1..], bytes[q[0].sid := Get(bytes, q[0].sid) + q[0].size])
  }

  /** `names` is the directory as it was listed: each session with a meta file or a log, in any order. */
  ghost predicate Listing(d: Disk, names: seq<Sid>) {
    && (forall s :: s in names <==> s in d.metas || s in d.logs)
    && (forall i, j :: 0 <= i < j < |names| ==> names[i] != names[j])
  }

  /** Where a session goes on from. */
  function NumbersOf(d: Disk, sid: Sid): (m: Meta) {
    Meta(HighWater(d, sid), MetaFile(d, sid).acked)
  }

  function Load(d: Disk, names: seq<Sid>, cap: nat): (m: Mem) {
    var q := Sorted(Gather(d, names));
    Mem(cap, q, map s | s in names :: NumbersOf(d, s), AddBytes(q, map[]), {}, {}, [])
  }

  lemma {:induction false} AddBytesIsTrueSize(q: seq<Event>, bytes: map<Sid, int>, sid: Sid)
    ensures Get(AddBytes(q, bytes), sid) == Get(bytes, sid) + TrueSize(q, sid)
  {
    if q != [] {
      AddBytesIsTrueSize(q[1..], bytes[q[0].sid := Get(bytes, q[0].sid) + q[0].size], sid);
    }
  }

  /** Each session's log holds that session's events (file names are per session). */
  ghost predicate OwnLogs(d: Disk) {
    forall s, e :: e in Log(d, s) ==> e.sid == s
  }

  lemma {:induction false} GatherSpec(d: Disk, names: seq<Sid>, e: Event)
    requires OwnLogs(d)
    ensures e in Gather(d, names) <==> e.sid in names && e in Log(d, e.sid) && e.num > MetaFile(d, e.sid).acked
  {
    if names != [] {
      assert names == [names[0]] + names[1..];
      GatherSpec(d, names[1..], e);
      UnackedSpec(Log(d, names[0]), MetaFile(d, names[0]).acked);
    }
  }

  lemma LoadQueue(d: Disk, names: seq<Sid>, cap: nat)
    requires Listing(d, names) && OwnLogs(d)
    ensures forall e :: e in Load(d, names, cap).queue <==> e in Log(d, e.sid) && e.num > MetaFile(d, e.sid).acked
  {
    var q := Load(d, names, cap).queue;
    var g := Gather(d, names);
    forall e ensures e in q <==> e in Log(d, e.sid) && e.num > MetaFile(d, e.sid).acked {
      assert e in q <==> e in multiset(q);
      assert e in g <==> e in multiset(g);
      GatherSpec(d, names, e);
    }
  }

  /**
   What `load` promises: every logged event the meta file does not count as acknowledged is back
   in the queue, and nothing else; each session goes on from the highest number on disk; the
   queue is in time order and the tracked bytes are exact.
   */
  lemma LoadSpec(d: Disk, names: seq<Sid>, cap: nat)
    requires Listing(d, names) && OwnLogs(d)
    ensures var m := Load(d, names, cap);
            && (forall e :: e in m.queue <==> e in Log(d, e.sid) && e.num > MetaFile(d, e.sid).acked)
            && (forall sid :: MetaOf(m, sid) == Meta(HighWater(d, sid), MetaFile(d, sid).acked))
            && m.unwritten == {} && m.ops == [] && m.closed == {}
            && ByTime(m.queue)
            && (forall sid :: BytesOf(m, sid) == TrueSize(m.queue, sid))
  {
    var m := Load(d, names, cap);
    LoadQueue(d, names, cap);
    SortedByTime(Gather(d, names));
    forall sid ensures BytesOf(m, sid) == TrueSize(m.queue, sid) {
      AddBytesIsTrueSize(m.queue, map[], sid);
    }
    forall sid ensures MetaOf(m, sid) == Meta(HighWater(d, sid), MetaFile(d, sid).acked) {
      assert sid in names <==> sid in d.metas || sid in d.logs;
    }
  }
}

/**
 A run in which a number is used twice: the process dies between `forget`'s two writes, after
 the session's log is removed and before its meta file is written (connector/src/outbox.ts).
 */
module OutboxGap {
  import opened OutboxQueue
  import opened OutboxShed
  import opened OutboxLoad
  import opened OutboxRun

  const CAP: nat := 1000
  const A := Event("s", 1, "note", 0, 1, "a")
  const B := Event("s", 2, "note", 0, 1, "b")
  const C := Event("s", 2, "note", 0, 1, "c")

  /** One more step of a run from a first start. */
  lemma {:induction false} Extend(w0: World, steps: seq<Step>, s: Step)
    requires Legal(w0, steps) && Enabled(Run(w0, steps), s)
    ensures Legal(w0, steps + [s]) && Run(w0, steps + [s]) == Apply(Run(w0, steps), s)
    decreases |steps|
  {
    if steps == [] {
      assert steps + [s] == [s];
      assert [s][1..] == [];
    } else {
      assert (steps + [s])[1..] == steps[1..] + [s];
      Extend(Apply(w0, steps[0]), steps[1..], s);
    }
  }

  ghost predicate Reaches(steps: seq<Step>, w: World) {
    Legal(Fresh(CAP, 0), steps) && Run(Fresh(CAP, 0), steps) == w
  }

  lemma Take(steps: seq<Step>, w: World, s: Step) returns (more: seq<Step>)
    requires Reaches(steps, w) && Enabled(w, s)
    ensures Reaches(more, Apply(w, s))
  {
    Extend(Fresh(CAP, 0), steps, s);
    more := steps + [s];
  }

  function Memory(queue: seq<Event>, meta: Meta, bytes: map<Sid, int>, closed: set<Sid>, unwritten: set<Event>,
                  ops: seq<Op>): (m: Mem)
  {
    Mem(CAP, queue, map["s" := meta], bytes, closed, unwritten, ops)
  }

  const FIRST: World :=
    World(Memory([A], Meta(1, 0), map["s" := 1], {}, {}, []), Idle, {},
          Disk(map["s" := Meta(1, 0)], map["s" := [A]]), {}, {}, 0, {}, {A}, {}, {}, {})

  lemma Begin()
    ensures Reaches([], Fresh(CAP, 0))
  {
  }

  /** The session's first event is written, and its meta file. */
  lemma WriteFirst() returns (steps: seq<Step>)
    ensures Reaches(steps, FIRST)
  {
    hide Reaches;
    Begin();
    var w := Fresh(CAP, 0);
    steps := Take([], w, AppendStep("s", "note", 1, "a"));
    w := Apply(w, AppendStep("s", "note", 1, "a"));
    assert w.mem == Memory([A], Meta(1, 0), map["s" := 1], {}, {A}, [Persist(A)]);
    steps := Take(steps, w, StartStep);
    w := Apply(w, StartStep);
    steps := Take(steps, w, LandStep);
    w := Apply(w, LandStep);
    assert Log(w.disk, "s") == [A];
    steps := Take(steps, w, LandStep);
    w := Apply(w, LandStep);
    assert w == FIRST;
  }

  const SECOND: World :=
    FIRST.(mem := Memory([A, B], Meta(2, 0), map["s" := 2], {}, {}, []),
    disk := Disk(map["s" := Meta(1, 0)], map["s" := [A, B]]), done := {A, B})

  /** The second is written; its number is only in the log. */
  lemma WriteSecond() returns (steps: seq<Step>)
    ensures Reaches(steps, SECOND)
  {
    hide Reaches;
    steps := WriteFirst();
    var w := FIRST;
    steps := Take(steps, w, AppendStep("s", "note", 1, "b"));
    w := Apply(w, AppendStep("s", "note", 1, "b"));
    assert w.mem == Memory([A, B], Meta(2, 0), map["s" := 2], {}, {B}, [Persist(B)]);
    steps := Take(steps, w, StartStep);
    w := Apply(w, StartStep);
    steps := Take(steps, w, LandStep);
    w := Apply(w, LandStep);
    assert w == SECOND;
  }

  const STORED: World := SECOND.(stored := {A, B}, sent := {[A, B]}, handed := {A, B})

  lemma BothPending()
    ensures Pending([A, B], {}, 2) == [A, B]
  {
    assert [A, B][1..] == [B] && [B][1..] == [];
    assert Pending([B], {}, 1) == [B];
  }

  lemma BothIngested()
    ensures Ingested({}, [A, B], {}) == {A, B}
  {
    assert [A, B][1..] == [B] && [B][1..] == [];
    assert !SameKey(A, B);
    var none: set<Event> := {};
    assert none + {A} == {A};
    assert Ingested({A}, [B], {}) == {A, B};
  }

  /** Both are posted and stored. */
  lemma StoreBoth() returns (steps: seq<Step>)
    ensures Reaches(steps, STORED)
  {
    hide Reaches, Pending, Ingested;
    steps := WriteSecond();
    var w := SECOND;
    BothPending();
    steps := Take(steps, w, PostStep(2));
    w := Apply(w, PostStep(2));
    assert w == SECOND.(sent := {[A, B]}, handed := {A, B});
    BothIngested();
    steps := Take(steps, w, DeliverStep([A, B], {}));
    w := Apply(w, DeliverStep([A, B], {}));
    assert w == STORED;
  }

  const ACKED: map<Sid, int> := map["s" := 2]
  const CLOSED: World := STORED.(mem := Memory([A, B], Meta(2, 0), map["s" := 2], {"s"}, {}, []))
  const ALL_ACKED: World := STORED.(mem := Memory([], Meta(2, 2), map[], {}, {}, [Forgetting("s")]))

  lemma AckBoth()
    ensures Ack(CLOSED.mem, ACKED) == ALL_ACKED.mem
  {
    assert [A, B][1..] == [B] && [B][1..] == [];
    assert AckKeep([B], ACKED) == [] && AckKeep([A, B], ACKED) == [];
    var none: set<Sid> := {};
    assert none + {"s"} == {"s"};
    assert Touched([B], ACKED, {"s"}) == [];
    assert Touched([A, B], ACKED, none) == [A.sid] + Touched([B], ACKED, none + {A.sid});
    var bytes: map<Sid, int> := map["s" := 2];
    assert bytes["s" := 1] == map["s" := 1] && bytes["s" := 1]["s" := 0] == map["s" := 0];
    assert AckBytes([B], ACKED, map["s" := 1]) == map["s" := 0];
    assert AckBytes([A, B], ACKED, bytes) == map["s" := 0];
    var m := CLOSED.mem.(queue := [], bytes := AckBytes([A, B], ACKED, map["s" := 2]));
    assert ["s"][1..] == [];
    assert SettleAll(m, ["s"], ACKED) == Settle(m, "s", 2);
    var settled := Settle(m, "s", 2);
    assert settled.meta == map["s" := Meta(2, 2)] && settled.bytes == map[];
    assert settled.closed == {} && settled.ops == [Forgetting("s")];
    assert settled == ALL_ACKED.mem;
  }

  /** The session closes and both events are acknowledged. */
  lemma CloseAndAck() returns (steps: seq<Step>)
    ensures Reaches(steps, ALL_ACKED)
  {
    hide Reaches, Ack;
    steps := StoreBoth();
    assert STORED.mem.queue[0].sid == "s";
    steps := Take(steps, STORED, CloseStep("s"));
    assert Apply(STORED, CloseStep("s")) == CLOSED;
    assert B in CLOSED.stored;
    steps := Take(steps, CLOSED, AckStep(ACKED));
    AckBoth();
  }

  const REMOVED: Disk := Disk(map["s" := Meta(1, 0)], map[])
  const IN_GAP: World :=
    ALL_ACKED.(mem := Memory([], Meta(2, 2), map[], {}, {}, []), disk := REMOVED, gap := {"s"},
    phase := ForgettingMeta("s", Meta(2, 2)))

  /** The log is removed; the meta file still says 1. */
  lemma RemoveLog() returns (steps: seq<Step>)
    ensures Reaches(steps, IN_GAP)
  {
    hide Reaches;
    steps := CloseAndAck();
    var w := ALL_ACKED;
    steps := Take(steps, w, StartStep);
    w := Apply(w, StartStep);
    steps := Take(steps, w, LandStep);
    w := Apply(w, LandStep);
    assert w == IN_GAP;
  }

  lemma LoadRemoved()
    ensures Load(REMOVED, ["s"], CAP) == Mem(CAP, [], map["s" := Meta(1, 0)], map[], {}, {}, [])
  {
    assert ["s"][1..] == [];
    assert Gather(REMOVED, ["s"]) == [];
    assert NumbersOf(REMOVED, "s") == Meta(1, 0);
  }

  const RESTARTED: World :=
    IN_GAP.(mem := Mem(CAP, [], map["s" := Meta(1, 0)], map[], {}, {}, []), phase := Idle)

  lemma Restart() returns (steps: seq<Step>)
    ensures Reaches(steps, RESTARTED)
  {
    hide Reaches, Load;
    steps := RemoveLog();
    assert Listing(REMOVED, ["s"]);
    steps := Take(steps, IN_GAP, CrashStep(["s"]));
    LoadRemoved();
    assert Apply(IN_GAP, CrashStep(["s"])).done == IN_GAP.done;
  }

  /** The process dies there; the next one numbers on from the stale meta file, and hands out number 2 again. */
  lemma GapReusesNumber() returns (steps: seq<Step>)
    ensures Legal(Fresh(CAP, 0), steps)
    ensures var w := Run(Fresh(CAP, 0), steps);
            exists a, b :: a in w.handed && b in w.handed && SameKey(a, b) && a != b
  {
    hide Legal, Run;
    steps := Restart();
    var w := RESTARTED;
    steps := Take(steps, w, AppendStep("s", "note", 1, "c"));
    w := Apply(w, AppendStep("s", "note", 1, "c"));
    assert w.mem == Memory([C], Meta(2, 0), map["s" := 1], {}, {C}, [Persist(C)]);
    steps := Take(steps, w, StartStep);
    w := Apply(w, StartStep);
    steps := Take(steps, w, LandStep);
    w := Apply(w, LandStep);
    assert w.mem.queue == [C] && w.mem.unwritten == {};
    steps := Take(steps, w, PostStep(1));
    assert Pending([C], {}, 1) == [C];
    w := Apply(w, PostStep(1));
    assert B in w.handed && C in w.handed && SameKey(B, C);
  }
}

/**
 A run in which a landed line is lost: the meta file of a session's first event fails after its line has landed, and
 before the event is tried again shedding rewrites the session's log without it (connector/src/outbox.ts).
 */
module OutboxTorn {
  import opened OutboxQueue
  import opened OutboxShed
  import opened OutboxLoad
  import opened OutboxRun
  import opened OutboxLines

  const CAP: nat := 1
  const A := Event("s", 1, "note", 0, 1, "a")
  const P := Event("s", 2, "plan", 0, 1, "p")

  lemma {:induction false} Extend(w0: World, n0: Notes, steps: seq<Step>, s: Step)
    requires Legal(w0, steps) && Careful(w0, steps) && Enabled(Run(w0, steps), s) && OutsideGap(Run(w0, steps), s)
    ensures Legal(w0, steps + [s]) && Careful(w0, steps + [s])
    ensures Run(w0, steps + [s]) == Apply(Run(w0, steps), s)
    ensures NotesOf(w0, n0, steps + [s]) == Noted(Run(w0, steps), NotesOf(w0, n0, steps), s)
    decreases |steps|
  {
    hide Apply, Enabled, Noted, OutsideGap;
    if steps == [] {
      assert steps + [s] == [s];
      assert [s][1..] == [];
    } else {
      assert (steps + [s])[1..] == steps[1..] + [s];
      Extend(Apply(w0, steps[0]), Noted(w0, n0, steps[0]), steps[1..], s);
    }
  }

  ghost predicate Reaches(steps: seq<Step>, w: World, n: Notes) {
    && Legal(Fresh(CAP, 0), steps) && Careful(Fresh(CAP, 0), steps)
    && Run(Fresh(CAP, 0), steps) == w && NotesOf(Fresh(CAP, 0), BLANK, steps) == n
  }

  lemma Begin()
    ensures Reaches([], Fresh(CAP, 0), BLANK)
  {
  }

  lemma Take(steps: seq<Step>, w: World, n: Notes, s: Step) returns (more: seq<Step>)
    requires Reaches(steps, w, n) && Enabled(w, s) && OutsideGap(w, s)
    ensures Reaches(more, Apply(w, s), Noted(w, n, s))
  {
    Extend(Fresh(CAP, 0), BLANK, steps, s);
    more := steps + [s];
  }

  function Memory(num: nat, ops: seq<Op>): (m: Mem) {
    Mem(CAP, [A], map["s" := Meta(num, 0)], map["s" := 1], {}, {A}, ops)
  }

  const TORN: World :=
    World(Memory(1, []), Idle, {A}, Disk(map[], map["s" := [A]]), {}, {}, 0, {}, {}, {}, {}, {})

  const NOTED := Notes({A}, {A}, {})

  /** The first event's line lands and its meta file fails. */
  lemma WriteTorn() returns (steps: seq<Step>)
    ensures Reaches(steps, TORN, NOTED)
  {
    hide Reaches;
    Begin();
    var w, n := Fresh(CAP, 0), BLANK;
    steps := Take([], w, n, AppendStep("s", "note", 1, "a"));
    w := Apply(w, AppendStep("s", "note", 1, "a"));
    assert w.mem == Memory(1, [Persist(A)]);
    steps := Take(steps, w, n, StartStep);
    w := Apply(w, StartStep);
    steps := Take(steps, w, n, LandStep);
    n := Noted(w, n, LandStep);
    w := Apply(w, LandStep);
    assert Log(w.disk, "s") == [A] && n == Notes({A}, {}, {});
    steps := Take(steps, w, n, FailStep);
    n := Noted(w, n, FailStep);
    w := Apply(w, FailStep);
    assert w == TORN && n == NOTED;
  }

  /** Appending past the cap sheds the new event at once, and queues a rewrite behind its write. */
  lemma AppendSheds()
    ensures Append(TORN.mem, P) == Memory(2, [Persist(P), Rewrite("s")]) && ShedBy(TORN.mem, P) == {P}
  {
    var e1 := Enqueued(TORN.mem, P);
    assert e1.queue == [A, P] && BytesOf(e1, "s") == 2;
    assert [A, P][1..] == [P] && [P][1..] == [];
    assert ShedScan([P], "s", 2, CAP).dropped == [P] && ShedScan([P], "s", 2, CAP).keep == [];
    assert ShedScan([A, P], "s", 2, CAP).keep == [A];
  }

  const REWRITTEN: Disk := Disk(map["s" := Meta(2, 0)], map["s" := []])

  const LOST: World := TORN.(mem := Memory(2, []), disk := REWRITTEN, shed := {P})

  lemma NothingToKeep()
    ensures Mine([A], "s", {A}) == []
  {
    assert [A][1..] == [];
  }

  lemma RewriteLands() returns (steps: seq<Step>)
    ensures Reaches(steps, LOST, Notes({A}, {A}, {A}))
  {
    hide Reaches, Append, ShedBy;
    steps := WriteTorn();
    var w, n := TORN, NOTED;
    steps := Take(steps, w, n, AppendStep("s", "plan", 1, "p"));
    w := Apply(w, AppendStep("s", "plan", 1, "p"));
    AppendSheds();
    assert w == TORN.(mem := Memory(2, [Persist(P), Rewrite("s")]), shed := {P});
    steps := Take(steps, w, n, StartStep);
    w := Apply(w, StartStep);
    steps := Take(steps, w, n, StartStep);
    w := Apply(w, StartStep);
    assert w.phase == RewritingMeta("s", Meta(2, 0)) && w.mem == Memory(2, []);
    steps := Take(steps, w, n, LandStep);
    w := Apply(w, LandStep);
    NothingToKeep();
    assert w.phase == RewritingLog("s", []);
    steps := Take(steps, w, n, LandStep);
    n := Noted(w, n, LandStep);
    w := Apply(w, LandStep);
    assert w == LOST && n == Notes({A}, {A}, {A});
  }

  lemma LoadFindsNothing()
    ensures Load(REWRITTEN, ["s"], CAP).queue == []
  {
    assert ["s"][1..] == [];
    assert Gather(REWRITTEN, ["s"]) == [];
  }

  /** The process may die anywhere but in the gap: what a restart then finds is an empty log. */
  lemma TornLineIsLost() returns (steps: seq<Step>)
    ensures Legal(Fresh(CAP, 0), steps) && Careful(Fresh(CAP, 0), steps)
    ensures var w := Run(Fresh(CAP, 0), steps);
            && A in NotesOf(Fresh(CAP, 0), BLANK, steps).lined
            && A !in w.shed && A !in w.refused && A !in w.stored && w.gap == {}
            && Listing(w.disk, ["s"]) && Load(w.disk, ["s"], CAP).queue == []
  {
    hide Legal, Careful, Run, NotesOf, Load;
    steps := RewriteLands();
    LoadFindsNothing();
  }
}

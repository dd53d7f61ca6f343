/**
 Three runs that lose a prompt whose turn was recorded and handled, so that the command cursor passed it.  A restart
 carries the turn on, and then: the connector stops again before the new record has landed, and drops the record; or
 the continuation fails before it is sent, and its record is removed without a word.  Or the connector stops, and the
 session's next prompt takes the record that the stopped turn left.
 */
module TurnsGap {
  import opened Wrappers
  import S = Snapshot
  import L = Ledger
  import T = Turns
  import opened TurnsRun

  const C: L.Command := L.Command(1, "prompt")
  const P: T.Prompt := T.Prompt(C, "session")

  const FIRST: T.Handler := T.Handler(P, 0, 1, false, T.Asking(0))
  const AGAIN: T.Handler := T.Handler(P, 1, 1, true, T.Asking(0))

  function Recorded(at: nat): (r: T.Records) {
    map["session" := T.Rec(P, at, false, false)]
  }

  /** The record of a turn whose agent waits for a permission, the only kind that is carried on. */
  const ASKING: T.Records := map["session" := T.Rec(P, 0, true, true)]

  lemma {:induction false} Joined(w: World, one: seq<Step>, two: seq<Step>)
    requires Legal(w, one) && Legal(Run(w, one), two)
    ensures Legal(w, one + two) && Run(w, one + two) == Run(Run(w, one), two)
    decreases |one|
  {
    hide Apply, Enabled;
    if one == [] {
      assert one + two == two;
    } else {
      assert (one + two)[1..] == one[1..] + two;
      Joined(Apply(w, one[0]), one[1..], two);
    }
  }

  /** Out of the ordinary: a restart, a stop, a record taken away. */
  predicate Rare(s: Step) {
    s.Crash? || (s.Turn? && (s.turn.Stop? || s.turn.Withdraw? || s.turn.Overrun?))
  }

  function With(rare: seq<Step>, s: Step): (r: seq<Step>) {
    if Rare(s) then rare + [s] else rare
  }

  function RareSteps(steps: seq<Step>): (r: seq<Step>) {
    if steps == [] then [] else With(RareSteps(steps[..|steps| - 1]), steps[|steps| - 1])
  }

  const BACK := Turn(T.Withdraw("session", false))
  const TAKE := Turn(T.Overrun("session"))
  const STOPPED := [Crash, Turn(T.Stop)]
  const WITHDRAWN := [Crash, BACK]
  const OVERRUN := [Turn(T.Stop), TAKE]

  ghost predicate Reaches(steps: seq<Step>, rare: seq<Step>, w: World) {
    Legal(First(), steps) && Run(First(), steps) == w && RareSteps(steps) == rare
  }

  lemma Longer(steps: seq<Step>, rare: seq<Step>, w: World, s: Step) returns (more: seq<Step>)
    requires Reaches(steps, rare, w) && Enabled(w, s)
    ensures Reaches(more, With(rare, s), Apply(w, s))
  {
    hide Apply, Enabled;
    assert [s][1..] == [];
    assert Legal(Apply(w, s), []);
    assert Legal(w, [s]);
    Joined(First(), steps, [s]);
    assert (steps + [s])[..|steps|] == steps;
    more := steps + [s];
  }

  /** An ordinary step. */
  lemma Next(steps: seq<Step>, rare: seq<Step>, w: World, s: Step) returns (more: seq<Step>, w': World)
    requires Reaches(steps, rare, w) && Enabled(w, s) && !Rare(s)
    ensures Reaches(more, rare, w') && w' == Apply(w, s)
  {
    hide Reaches, Apply, Enabled;
    more := Longer(steps, rare, w, s);
    w' := Apply(w, s);
  }

  /** A step out of the ordinary. */
  lemma NextRare(steps: seq<Step>, rare: seq<Step>, w: World, s: Step, all: seq<Step>)
    returns (more: seq<Step>, w': World)
    requires Reaches(steps, rare, w) && Enabled(w, s) && Rare(s) && rare + [s] == all
    ensures Reaches(more, all, w') && w' == Apply(w, s)
  {
    hide Reaches, Apply, Enabled;
    more := Longer(steps, rare, w, s);
    w' := Apply(w, s);
  }

  lemma Start() returns (steps: seq<Step>)
    ensures Reaches(steps, [], First())
  {
    steps := [];
  }

  lemma ItIsOffered() returns (steps: seq<Step>, w: World)
    ensures Reaches(steps, [], w) && w.t == T.Empty() && w.dropped == {}
    ensures w.l.log == [C] && w.l.book == L.Book({1}, {"prompt"}, [], 1, 0) && w.l.disk == L.First().disk
  {
    hide Reaches;
    w := First();
    steps := Start();
    var s := Commands(L.Issue(C));
    steps, w := Next(steps, [], w, s);
    s := Commands(L.Offer(0));
    steps, w := Next(steps, [], w, s);
  }

  /** The prompt reached its agent. */
  ghost predicate Sent(w: World) {
    && w.dropped == {}
    && w.l.log == [C] && w.l.book == L.Book({1}, {"prompt"}, [], 1, 0) && w.l.disk == L.First().disk
    && w.t == T.State(S.World(S.Core(Recorded(0), 1, 0, 0, Some(S.Write(1, Recorded(0))), [S.Waiter(0, 1)]),
                              map[], 0, [map[], Recorded(0)], map[0 := 1], map[]),
                      {FIRST}, {P}, {}, {}, {}, false, 1, 0)
  }

  lemma ItIsSent() returns (steps: seq<Step>, w: World)
    ensures Reaches(steps, [], w) && Sent(w)
  {
    hide Reaches;
    steps, w := ItIsOffered();
    var s := Turn(T.Send(P, false, 0));
    assert map[]["session" := T.Rec(P, 0, false, false)] == Recorded(0);
    steps, w := Next(steps, [], w, s);
  }

  /** Its record landed. */
  ghost predicate OnDisk(w: World) {
    && w.dropped == {}
    && w.l.log == [C] && w.l.book == L.Book({1}, {"prompt"}, [], 1, 0) && w.l.disk == L.First().disk
    && w.t.file.core == S.Core(Recorded(0), 1, 1, 0, None, []) && w.t.file.fileNo == 1
    && w.t.file.file == Recorded(0) && 0 in w.t.file.answers && w.t.file.answers[0]
    && w.t == T.State(w.t.file, {FIRST}, {P}, {}, {}, {}, false, 1, 0)
  }

  lemma ItIsOnDisk() returns (steps: seq<Step>, w: World)
    ensures Reaches(steps, [], w) && OnDisk(w)
  {
    hide Reaches;
    steps, w := ItIsSent();
    steps, w := Next(steps, [], w, LAND);
    var s := Turn(T.Disk(S.FinishStep(true)));
    assert S.Sooner([S.Waiter(0, 1)], 1) == [S.Waiter(0, 1)];
    assert S.IdsUpTo([S.Waiter(0, 1)], 1) == {0};
    steps, w := Next(steps, [], w, s);
  }

  /** Its record landed, it counts as handled, and the server was told so. */
  ghost predicate Handled(w: World) {
    && w.dropped == {}
    && w.l.log == [C] && w.l.reported >= 1
    && w.t.file.core == S.Core(Recorded(0), 1, 1, 0, None, []) && w.t.file.fileNo == 1
    && w.t == T.State(w.t.file, {}, {P}, {}, {}, {P}, false, 1, 0)
  }

  lemma ItIsHandled() returns (steps: seq<Step>, w: World)
    ensures Reaches(steps, [], w) && Handled(w)
  {
    hide Reaches;
    steps, w := ItIsOnDisk();
    var s := Turn(T.Flushed(FIRST));
    steps, w := Next(steps, [], w, s);
    assert w.l.book.inflight == {};
    assert w.l.book.floor == 1;
    s := Commands(L.Heartbeat);
    steps, w := Next(steps, [], w, s);
  }

  /** Its agent asked for a permission, which is on record. */
  ghost predicate Asking(w: World) {
    && w.dropped == {}
    && w.l.log == [C] && w.l.reported >= 1
    && w.t.file.file == ASKING
    && w.t == T.State(w.t.file, {}, {P}, {}, {}, {P}, false, 1, 0)
  }

  lemma ItIsAsking() returns (steps: seq<Step>, w: World)
    ensures Reaches(steps, [], w) && Asking(w)
  {
    hide Reaches;
    steps, w := ItIsHandled();
    var s := Turn(T.Mark("session", true, true));
    assert T.Marked(Recorded(0), "session", true, true) == ASKING;
    assert ASKING["session"] != Recorded(0)["session"];
    steps, w := Next(steps, [], w, s);
    steps, w := Next(steps, [], w, LAND);
  }

  /** The restarted connector carried the turn on and is stopping. */
  ghost predicate Stopping(w: World) {
    && w.dropped == {}
    && w.l.log == [C] && w.l.reported >= 1
    && w.t == T.State(S.World(S.Core(Recorded(1), 1, 0, 0, Some(S.Write(1, Recorded(1))), [S.Waiter(0, 1)]),
                              ASKING, 0, [ASKING, Recorded(1)], map[0 := 1], map[]),
                      {AGAIN}, {P}, {}, {}, {P}, true, 2, 1)
  }

  lemma ItIsStopping() returns (steps: seq<Step>, w: World)
    ensures Reaches(steps, STOPPED, w) && Stopping(w)
  {
    hide Reaches;
    steps, w := ItIsAsking();
    steps, w := NextRare(steps, [], w, Crash, [Crash]);
    var s := Turn(T.Send(P, true, 0));
    assert ASKING["session" := T.Rec(P, 1, false, false)] == Recorded(1);
    steps, w := Next(steps, [Crash], w, s);
    steps, w := NextRare(steps, [Crash], w, Turn(T.Stop), STOPPED);
  }

  /** A prompt that reached its agent and that the server was told is handled is accounted for nowhere. */
  ghost predicate Lost(w: World) {
    P in w.t.sent && P.cmd.num <= w.l.reported && P.cmd !in w.dropped && !T.Accounts(w.t, P, w.t.file.file)
  }

  /** A run that loses the prompt, with these steps out of the ordinary and no others. */
  ghost predicate Loss(steps: seq<Step>, rare: seq<Step>) {
    Legal(First(), steps) && RareSteps(steps) == rare && Lost(Run(First(), steps))
  }

  lemma IsLost(steps: seq<Step>, rare: seq<Step>, w: World)
    requires Reaches(steps, rare, w) && P in w.t.sent && P.cmd.num <= w.l.reported && P.cmd !in w.dropped
    requires !T.Accounts(w.t, P, w.t.file.file)
    ensures Loss(steps, rare)
  {
  }

  /** A restart carries the turn on, and the connector stops before the new record has landed. */
  lemma StopCanLoseATurn()
    ensures exists steps :: Loss(steps, STOPPED)
  {
    hide Reaches, Loss;
    var steps, w := ItIsStopping();
    var s := Turn(T.NotFlushed(AGAIN));
    assert Recorded(1) - {"session"} == map[];
    steps, w := Next(steps, STOPPED, w, s);
    s := Turn(T.Disk(S.FinishStep(false)));
    steps, w := Next(steps, STOPPED, w, s);
    steps, w := Next(steps, STOPPED, w, LAND);
    IsLost(steps, STOPPED, w);
  }

  /** The restarted connector took the continuation back without a word. */
  ghost predicate Withdrawn(w: World) {
    && w.dropped == {}
    && w.l.log == [C] && w.l.reported >= 1
    && w.t == T.State(S.World(S.Core(map[], 1, 0, 0, Some(S.Write(1, map[])), []),
                              ASKING, 0, [ASKING, map[]], map[], map[]),
                      {}, {P}, {}, {}, {P}, false, 1, 1)
  }

  lemma ItIsWithdrawn() returns (steps: seq<Step>, w: World)
    ensures Reaches(steps, WITHDRAWN, w) && Withdrawn(w)
  {
    hide Reaches;
    steps, w := ItIsAsking();
    steps, w := NextRare(steps, [], w, Crash, [Crash]);
    assert ASKING - {"session"} == map[];
    steps, w := NextRare(steps, [Crash], w, BACK, WITHDRAWN);
  }

  /** The same prompt is lost when its continuation fails before it is sent and nobody is told. */
  lemma WithdrawalCanLoseATurn()
    ensures exists steps :: Loss(steps, WITHDRAWN)
  {
    hide Reaches, Loss;
    var steps, w := ItIsWithdrawn();
    steps, w := Next(steps, WITHDRAWN, w, LAND);
    IsLost(steps, WITHDRAWN, w);
  }

  /** The connector stopped while the turn ran, and the next prompt took its record. */
  ghost predicate Overrun(w: World) {
    && w.dropped == {}
    && w.l.log == [C] && w.l.reported >= 1
    && w.t.file.core.running == Some(S.Write(2, map[])) && w.t.file.fileNo == 1
    && w.t == T.State(w.t.file, {}, {P}, {}, {}, {P}, true, 1, 0)
  }

  lemma ItIsOverrun() returns (steps: seq<Step>, w: World)
    ensures Reaches(steps, OVERRUN, w) && Overrun(w)
  {
    hide Reaches;
    steps, w := ItIsHandled();
    steps, w := NextRare(steps, [], w, Turn(T.Stop), [Turn(T.Stop)]);
    assert Recorded(0) - {"session"} == map[];
    steps, w := NextRare(steps, [Turn(T.Stop)], w, TAKE, OVERRUN);
  }

  /** Without a restart: the next prompt of the session, refused or sent while the connector stops, takes its record. */
  lemma NextPromptCanLoseATurn()
    ensures exists steps :: Loss(steps, OVERRUN)
  {
    hide Reaches, Loss;
    var steps, w := ItIsOverrun();
    steps, w := Next(steps, OVERRUN, w, LAND);
    IsLost(steps, OVERRUN, w);
  }

  // ----- and one that gives both -----

  /** The run finds the turn, and the server's next offer begins the prompt again. */
  ghost predicate Both(w: World) {
    && "session" in T.Now(w.t) && T.Now(w.t)["session"].prompt == P
    && L.Enabled(w.l, L.Offer(0)) && w.l.log[0] == C && C.num in L.Apply(w.l, L.Offer(0)).book.inflight
  }

  lemma CrashCanGiveBoth()
    ensures exists steps :: Legal(First(), steps) && RareSteps(steps) == [Crash] && Both(Run(First(), steps))
  {
    hide Legal, Run, RareSteps;
    var steps, w := ItIsOnDisk();
    steps, w := NextRare(steps, [], w, Crash, [Crash]);
    assert Both(w);
  }
}

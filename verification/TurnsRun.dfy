/**
 The turn hand-off together with the command ledger, over every run with restarts: no prompt that
 reached an agent is lost between the two.
 */
module TurnsRun {
  import S = Snapshot
  import L = Ledger
  import T = Turns

  /**
   `dropped` are the commands counted as handled without reaching an agent: refused, cancelled, or no prompt at all.
   */
  datatype World = World(t: T.State, l: L.World, dropped: set<L.Command>)

  datatype Step =
    | Turn(turn: T.Step)
    | Commands(ledger: L.Step)
    | Drop(c: L.Command)
    | Crash

  /** Begun, not ended, and with no handler that will end it. */
  ghost predicate Free(w: World, c: L.Command) {
    && c in w.l.log && c.num in w.l.book.inflight
    && forall h :: h in w.t.handlers && !h.resumed ==> h.prompt.cmd != c
  }

  /** The step ends a command in the ledger. */
  predicate Ends(t: T.State, s: T.Step) {
    T.Hands(t, s) && !s.h.resumed
  }

  ghost predicate Enabled(w: World, s: Step) {
    match s
    case Turn(s) =>
      && T.Enabled(w.t, s)
      && (s.Send? && !s.resumed ==> Free(w, s.p.cmd))
      && (Ends(w.t, s) ==> L.Enabled(w.l, L.Handled(s.h.prompt.cmd)))
    case Commands(s) => !s.Handled? && !s.Crash? && L.Enabled(w.l, s)
    case Drop(c) => Free(w, c)
    case Crash => true
  }

  ghost function Apply(w: World, s: Step): (r: World)
    requires Enabled(w, s)
  {
    match s
    case Turn(s) =>
      w.(t := T.Apply(w.t, s), l := if Ends(w.t, s) then L.Apply(w.l, L.Handled(s.h.prompt.cmd)) else w.l)
    case Commands(s) => w.(l := L.Apply(w.l, s))
    case Drop(c) => w.(l := L.Apply(w.l, L.Handled(c)), dropped := w.dropped + {c})
    case Crash => w.(t := T.Restarted(w.t), l := L.Apply(w.l, L.Crash))
  }

  function First(): (w: World) {
    World(T.Empty(), L.First(), {})
  }

  ghost predicate Legal(w: World, steps: seq<Step>)
    decreases |steps|
  {
    steps == [] || (Enabled(w, steps[0]) && Legal(Apply(w, steps[0]), steps[1..]))
  }

  ghost function Run(w: World, steps: seq<Step>): (r: World)
    requires Legal(w, steps)
    decreases |steps|
  {
    if steps == [] then w else Run(Apply(w, steps[0]), steps[1..])
  }

  predicate Careless(w: World, s: Step) {
    s.Turn? && T.Careless(w.t, s.turn)
  }

  /** No step drops the record of a prompt that counts as handled, or will, without a word. */
  ghost predicate Careful(w: World, steps: seq<Step>)
    requires Legal(w, steps)
    decreases |steps|
  {
    steps == [] || (!Careless(w, steps[0]) && Careful(Apply(w, steps[0]), steps[1..]))
  }

  // ----- what every step keeps -----

  ghost predicate HandlersInFlight(w: World) {
    && (forall h :: h in w.t.handlers ==> h.prompt in w.t.sent)
    && (forall h :: h in w.t.handlers && !h.resumed ==>
        h.prompt.cmd in w.l.log && h.prompt.cmd.num in w.l.book.inflight)
    && (forall g, h ::
          (g in w.t.handlers && h in w.t.handlers && !g.resumed && !h.resumed && g.prompt.cmd == h.prompt.cmd) ==>
            g.startedAt == h.startedAt)
  }

  ghost predicate EndsExplained(w: World) {
    && (forall c :: c in w.l.ended ==> c in w.dropped || exists p :: p in w.t.handled && p.cmd == c)
    && (forall p :: p in w.t.handled ==> p in w.t.sent)
    && (forall p :: p in w.t.sent ==> p.cmd in w.l.log)
    && (forall p, q :: p in w.t.sent && q in w.t.sent && p.cmd == q.cmd ==> p == q)
  }

  ghost predicate Inv(w: World) {
    L.Inv(w.l) && T.Fits(w.t) && HandlersInFlight(w) && EndsExplained(w)
  }

  /** Ending one command leaves every other one in flight. */
  lemma OthersStay(l: L.World, c: L.Command, d: L.Command)
    requires L.Inv(l) && L.Enabled(l, L.Handled(c)) && d in l.log && d.num in l.book.inflight && d != c
    ensures d.num in L.Apply(l, L.Handled(c)).book.inflight
  {
    if d.num == c.num {
      L.SamePlace(l.log, c, d);
    }
  }

  /** A handler may always end its command. */
  lemma HandlersMayEnd(w: World, s: T.Step)
    requires Inv(w) && T.Enabled(w.t, s)
    ensures Ends(w.t, s) ==> L.Enabled(w.l, L.Handled(s.h.prompt.cmd))
  {
  }

  lemma TurnKeepsFlight(w: World, s: T.Step)
    requires Inv(w) && Enabled(w, Turn(s))
    ensures HandlersInFlight(Apply(w, Turn(s)))
  {
    hide L.Inv, S.Inv, S.Apply, T.HandlerFits, EndsExplained;
    var w' := Apply(w, Turn(s));
    T.NowDated(w.t);
    if Ends(w.t, s) {
      var c := s.h.prompt.cmd;
      forall h | h in w'.t.handlers && !h.resumed ensures h.prompt.cmd.num in w'.l.book.inflight {
        OthersStay(w.l, c, h.prompt.cmd);
      }
    }
  }

  lemma TurnKeepsEnds(w: World, s: T.Step)
    requires Inv(w) && Enabled(w, Turn(s))
    ensures EndsExplained(Apply(w, Turn(s)))
  {
    hide L.Inv, S.Inv, S.Apply, T.HandlerFits;
    T.NowDated(w.t);
    var w' := Apply(w, Turn(s));
    forall c | c in w'.l.ended ensures c in w'.dropped || exists p :: p in w'.t.handled && p.cmd == c {
      if c in w.l.ended && c !in w.dropped {
        var p :| p in w.t.handled && p.cmd == c;
        assert p in w'.t.handled;
      } else if c !in w.l.ended {
        assert s.h.prompt in w'.t.handled;
      }
    }
  }

  lemma StepKeeps(w: World, s: Step)
    requires Inv(w) && Enabled(w, s) && !Careless(w, s)
    ensures Inv(Apply(w, s))
    ensures T.Safe(w.t) ==> T.Safe(Apply(w, s).t)
  {
    hide L.Inv, S.Inv, S.Apply, T.Fits, T.Safe, HandlersInFlight, EndsExplained, T.Apply, L.Apply, T.Careless, T.Stays;
    match s
    case Turn(s) =>
      T.CarefulStays(w.t, s);
      T.StepFits(w.t, s);
      if Ends(w.t, s) {
        L.StepKeeps(w.l, L.Handled(s.h.prompt.cmd));
      }
      TurnKeepsFlight(w, s);
      TurnKeepsEnds(w, s);
      if T.Safe(w.t) {
        T.StepSafe(w.t, s);
      }
    case Commands(s) => CommandsKeep(w, s);
    case Drop(c) => DropKeeps(w, c);
    case Crash =>
      T.RestartKeeps(w.t);
      L.StepKeeps(w.l, L.Crash);
      CrashKeeps(w);
  }

  lemma CommandsKeep(w: World, s: L.Step)
    requires Inv(w) && Enabled(w, Commands(s))
    ensures Inv(Apply(w, Commands(s)))
  {
    hide L.Inv, T.Fits;
    L.StepKeeps(w.l, s);
  }

  lemma DropKeeps(w: World, c: L.Command)
    requires Inv(w) && Enabled(w, Drop(c))
    ensures Inv(Apply(w, Drop(c)))
  {
    hide L.Inv, T.Fits;
    L.StepKeeps(w.l, L.Handled(c));
    forall h | h in w.t.handlers && !h.resumed ensures h.prompt.cmd.num in Apply(w, Drop(c)).l.book.inflight {
      OthersStay(w.l, c, h.prompt.cmd);
    }
  }

  lemma CrashKeeps(w: World)
    requires Inv(w)
    ensures HandlersInFlight(Apply(w, Crash)) && EndsExplained(Apply(w, Crash))
  {
    hide L.Inv, T.Fits;
  }

  lemma {:induction false} RunKeeps(w: World, steps: seq<Step>)
    requires Inv(w) && Legal(w, steps) && Careful(w, steps)
    ensures Inv(Run(w, steps))
    ensures T.Safe(w.t) ==> T.Safe(Run(w, steps).t)
    decreases |steps|
  {
    hide Inv, Apply, Enabled, T.Safe, Careless;
    if steps != [] {
      StepKeeps(w, steps[0]);
      RunKeeps(Apply(w, steps[0]), steps[1..]);
    }
  }

  lemma FirstInv()
    ensures Inv(First()) && T.Safe(First().t)
  {
    L.FirstInv();
  }

  // ----- results -----

  /** What is on disk accounts for every prompt that counts as handled. */
  ghost predicate Kept(t: T.State) {
    forall p :: p in t.handled ==> T.Accounts(t, p, t.file.file)
  }

  lemma SafeIsKept(t: T.State)
    requires T.Fits(t) && T.Safe(t)
    ensures Kept(t)
  {
    assert t.file.file == t.file.history[t.file.fileNo];
  }

  /**
   Never neither: at every point of a careful run, a prompt that reached an agent and that the cursor has
   passed (the one the server was told, or the one a restart resumes from) has its turn record on disk,
   or its turn has ended, or its session is closed; or it was refused when it was delivered again.
   Any other prompt is still above the cursor, so the server delivers it again.
   */
  lemma NeverNeither(steps: seq<Step>)
    requires Legal(First(), steps) && Careful(First(), steps)
    ensures var w := Run(First(), steps);
            forall p :: p in w.t.sent && (p.cmd.num <= w.l.reported || p.cmd.num <= w.l.disk.cursor) ==>
              p.cmd in w.dropped || T.Accounts(w.t, p, w.t.file.file)
  {
    hide T.Accounts, T.Fits, T.Safe;
    FirstInv();
    RunKeeps(First(), steps);
    var w := Run(First(), steps);
    SafeIsKept(w.t);
    forall p | p in w.t.sent && (p.cmd.num <= w.l.reported || p.cmd.num <= w.l.disk.cursor)
      ensures p.cmd in w.dropped || T.Accounts(w.t, p, w.t.file.file)
    {
      assert p.cmd in w.l.ended by {
        CursorMeansEnded(w.l, p.cmd);
      }
      if p.cmd !in w.dropped {
        var q :| q in w.t.handled && q.cmd == p.cmd;
        assert q in w.t.sent;
      }
    }
  }

  lemma CursorMeansEnded(l: L.World, c: L.Command)
    requires L.Inv(l) && c in l.log && (c.num <= l.reported || c.num <= l.disk.cursor)
    ensures c in l.ended
  {
  }

  // ----- the steps that break it -----

  /** A run that goes on carefully and ends with a handled prompt nobody accounts for. */
  ghost predicate Loses(w: World, more: seq<Step>) {
    Legal(w, more) && Careful(w, more) && !Kept(Run(w, more).t)
  }

  lemma LoseNow(w: World, s: Step)
    requires Enabled(w, s) && !Careless(w, s) && !Kept(Apply(w, s).t)
    ensures Loses(w, [s])
  {
    var w' := Apply(w, s);
    assert [s][1..] == [];
    assert Legal(w', []) && Run(w', []) == w' && Careful(w', []);
  }

  lemma LoseLater(w: World, s: Step, more: seq<Step>)
    requires Enabled(w, s) && !Careless(w, s) && Loses(Apply(w, s), more)
    ensures Loses(w, [s] + more)
  {
    assert ([s] + more)[1..] == more;
  }

  const LAND := Turn(T.Disk(S.LandStep))

  /** The newest content is being written, and that write has not landed. */
  predicate LatestUnderWay(f: S.World<T.Records>) {
    f.core.running.Some? && f.core.running.value.upTo == f.core.saved && !S.HasLanded(f)
  }

  /** Right after a save: its write is under way, or starts when the one under way comes back. */
  lemma SaveGetsWritten(f: S.World<T.Records>, data: T.Records)
    requires S.Inv(f)
    ensures var g := S.Apply(f, S.SaveStep(data));
            var back := S.FinishStep(S.HasLanded(g));
            LatestUnderWay(g) || (S.Enabled(g, back) && LatestUnderWay(S.Apply(g, back)))
  {
    S.StepKeepsInv(f, S.SaveStep(data));
    hide S.Sooner, S.Later, S.AskersAgree;
  }

  /** Nobody accounts for the prompt any more. */
  ghost predicate Gone(w: World, p: T.Prompt) {
    S.Inv(w.t.file) && p.sid !in T.Now(w.t) && p !in w.t.over && p.sid !in w.t.closed
  }

  ghost predicate Counting(w: World, h: T.Handler, p: T.Prompt) {
    h in w.t.handlers && !h.resumed && h.prompt == p && L.Enabled(w.l, L.Handled(p.cmd))
  }

  /** The prompt counts as handled, or its handler will see to that. */
  ghost predicate Counts(w: World, p: T.Prompt) {
    p in w.t.handled || exists h :: Counting(w, h, p)
  }

  lemma CountsStays(w: World, w': World, p: T.Prompt)
    requires Counts(w, p) && w'.t.handled == w.t.handled && w'.t.handlers == w.t.handlers && w'.l == w.l
    ensures Counts(w', p)
  {
    if p !in w.t.handled {
      var h :| Counting(w, h, p);
      assert Counting(w', h, p);
    }
  }

  /** A handler whose record is gone counts its prompt as handled at its next round. */
  lemma HandlerLoses(w: World, h: T.Handler, p: T.Prompt) returns (more: seq<Step>)
    requires Gone(w, p) && Counting(w, h, p) && w.t.file.file == T.Now(w.t) && h.wait.Asking?
    ensures Loses(w, more)
  {
    hide S.Inv, L.Apply, Loses;
    var s := Turn(T.NotFlushed(h));
    assert !T.Accounts(Apply(w, s).t, p, w.t.file.file);
    LoseNow(w, s);
    more := [s];
  }

  lemma NothingMore(w: World, p: T.Prompt)
    requires p in w.t.handled && !T.Accounts(w.t, p, w.t.file.file)
    ensures Loses(w, [])
  {
  }

  lemma {:induction false} SomeOther(ids: set<nat>) returns (id: nat)
    ensures id !in ids && forall i :: i in ids ==> i < id
    decreases ids
  {
    if ids == {} {
      id := 0;
    } else {
      var i :| i in ids;
      var rest := ids - {i};
      var free := SomeOther(rest);
      assert forall j :: j in ids ==> j == i || j in rest;
      id := if i < free then free else i + 1;
    }
  }

  lemma AskKeepsFile(f: S.World<T.Records>, id: nat)
    requires S.Inv(f) && id !in f.asked
    ensures var g := S.Apply(f, S.AskStep(id)); S.Inv(g) && g.file == f.file && g.core.latest == f.core.latest
  {
    T.AskIs(f, id);
  }

  lemma LandedLoses(w: World, p: T.Prompt) returns (more: seq<Step>)
    requires Gone(w, p) && Counts(w, p) && w.t.file.file == T.Now(w.t)
    ensures Loses(w, more)
  {
    hide S.Inv, S.Apply, Loses;
    if p in w.t.handled {
      NothingMore(w, p);
      more := [];
    } else {
      var h :| Counting(w, h, p);
      if h.wait.Asking? {
        more := HandlerLoses(w, h, p);
      } else {
        var id := SomeOther(w.t.file.asked.Keys);
        AskKeepsFile(w.t.file, id);
        var s := Turn(T.AskAgain(h, id));
        more := HandlerLoses(Apply(w, s), h.(wait := T.Asking(id)), p);
        LoseLater(w, s, more);
        more := [s] + more;
      }
    }
  }

  /** The write of the newest content is under way: once it lands, that is what a restart finds. */
  lemma UnderWayLoses(w: World, p: T.Prompt) returns (more: seq<Step>)
    requires Gone(w, p) && Counts(w, p) && LatestUnderWay(w.t.file)
    ensures Loses(w, more)
  {
    hide Loses, L.Enabled, L.Apply;
    S.StepKeepsInv(w.t.file, S.LandStep);
    var w' := Apply(w, LAND);
    CountsStays(w, w', p);
    assert w'.t.file.file == T.Now(w'.t);
    more := LandedLoses(w', p);
    LoseLater(w, LAND, more);
    more := [LAND] + more;
  }

  /** The write under way comes back first, and the newest content is next. */
  lemma BackLoses(w: World, p: T.Prompt) returns (more: seq<Step>)
    requires Gone(w, p) && Counts(w, p)
    requires var back := S.FinishStep(S.HasLanded(w.t.file));
             S.Enabled(w.t.file, back) && LatestUnderWay(S.Apply(w.t.file, back))
    ensures Loses(w, more)
  {
    hide Loses, S.Apply, L.Enabled, S.Inv;
    var back := Turn(T.Disk(S.FinishStep(S.HasLanded(w.t.file))));
    T.DiskIs(w.t.file, back.turn.s);
    var w' := Apply(w, back);
    CountsStays(w, w', p);
    more := UnderWayLoses(w', p);
    LoseLater(w, back, more);
    more := [back] + more;
  }

  lemma DroppedIsOpen(t: T.State, s: T.Step)
    requires T.Fits(t) && T.Enabled(t, s) && T.DropsSilently(t, s)
    ensures T.DroppedBy(t, s).sid !in t.closed && T.DroppedBy(t, s).sid !in T.NowAfter(t, s)
  {
    T.NowDated(t);
  }

  lemma DroppedIsGone(w: World, s: T.Step)
    requires T.Fits(w.t) && Enabled(w, Turn(s)) && T.Careless(w.t, s)
    ensures Gone(Apply(w, Turn(s)), T.DroppedBy(w.t, s))
  {
    hide S.Inv, T.AccountsFrom, T.HandlerFits, T.Dated, S.Apply;
    DroppedIsOpen(w.t, s);
    T.StepExtends(w.t, s);
  }

  lemma DroppedCounts(w: World, s: T.Step)
    requires Inv(w) && Enabled(w, Turn(s)) && T.Careless(w.t, s)
    ensures Counts(Apply(w, Turn(s)), T.DroppedBy(w.t, s))
  {
    hide S.Inv, L.Inv, L.Apply, S.Apply, EndsExplained, T.AccountsFrom;
    var p, w' := T.DroppedBy(w.t, s), Apply(w, Turn(s));
    if p !in w.t.handled {
      var h :| h in w.t.handlers && !h.resumed && T.Owns(w.t, h, s.sid);
      assert T.HandlerFits(w.t, h);
      assert h.prompt == p;
      assert Counting(w', h, p);
    }
  }

  /** After a careless step, the disk soon accounts for that prompt no more, and it counts as handled. */
  lemma CarelessLoses(w: World, s: Step)
    requires Inv(w) && Enabled(w, s) && Careless(w, s)
    ensures exists more :: Loses(Apply(w, s), more)
  {
    hide S.Inv, L.Inv, S.Apply, Loses, Gone, Counts, HandlersInFlight, EndsExplained, T.HandlerFits, T.Dated;
    var w' := Apply(w, s);
    var p := T.DroppedBy(w.t, s.turn);
    DroppedIsGone(w, s.turn);
    DroppedCounts(w, s.turn);
    SaveGetsWritten(w.t.file, T.NowAfter(w.t, s.turn));
    if LatestUnderWay(w'.t.file) {
      var more := UnderWayLoses(w', p);
    } else {
      var more := BackLoses(w', p);
    }
  }

  /**
   What breaks the promise is exactly a careless step: after any other one, however the run goes on
   carefully, the disk accounts for every handled prompt; after a careless one, it soon does not.
   */
  lemma BrokenExactlyByCarelessness(steps: seq<Step>, s: Step)
    requires Legal(First(), steps) && Careful(First(), steps) && Enabled(Run(First(), steps), s)
    ensures var w := Run(First(), steps);
            Careless(w, s) <==> exists more :: Loses(Apply(w, s), more)
  {
    hide Apply, Enabled, Careless, T.Safe, Kept, T.Fits;
    FirstInv();
    RunKeeps(First(), steps);
    var w := Run(First(), steps);
    if Careless(w, s) {
      CarelessLoses(w, s);
    } else {
      StepKeeps(w, s);
      forall more | Legal(Apply(w, s), more) && Careful(Apply(w, s), more) ensures Kept(Run(Apply(w, s), more).t) {
        RunKeeps(Apply(w, s), more);
        SafeIsKept(Run(Apply(w, s), more).t);
      }
    }
  }
}

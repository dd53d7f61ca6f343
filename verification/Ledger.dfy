/**
 Which commands the server may forget: `CommandLedger` (connector/src/connector.ts) and its runs,
 with the commands the server holds, the saved copy in connector.json and restarts from it.
 */
module Ledger {

  const KEPT: nat := 500

  /** What the ledger holds: the numbers and ids under way, the ids of the last commands ended, and its cursor. */
  datatype Book = Book(inflight: set<int>, inflightIds: set<string>, ids: seq<string>, highest: int, floor: int)

  function Opened(cursor: int, handled: seq<string>): (b: Book) {
    Book({}, {}, handled, cursor, cursor)
  }

  predicate Seen(b: Book, num: int, id: string) {
    num <= b.floor || num in b.inflight || id in b.inflightIds || id in b.ids
  }

  function Max(a: int, b: int): (r: int) {
    if a >= b then a else b
  }

  function Begin(b: Book, num: int, id: string): (r: Book) {
    b.(inflight := b.inflight + {num}, inflightIds := b.inflightIds + {id}, highest := Max(b.highest, num))
  }

  function Last<T>(s: seq<T>, n: nat): (r: seq<T>) {
    if |s| <= n then s else s[|s| - n..]
  }

  lemma SomeMember(s: set<int>)
    ensures s == {} || exists x :: x in s
  {
    if forall x :: x !in s {
      assert s == {};
    }
  }

  /** The smallest number of a set that has one. */
  ghost function Min(s: set<int>): (m: int)
    requires s != {}
    ensures m in s && forall x :: x in s ==> m <= x
  {
    SomeMember(s);
    var x :| x in s;
    SomeMember(s - {x});
    assert forall z :: z in s ==> z == x || z in s - {x};
    if s - {x} == {} then x
    else
      var y := Min(s - {x});
      if x < y then x else y
  }

  /** The highest number such that nothing at or below it is under way. */
  ghost function Safe(inflight: set<int>, highest: int): (n: int) {
    if inflight == {} then highest else Min(inflight) - 1
  }

  ghost function End(b: Book, num: int, id: string): (r: Book) {
    var left := b.inflight - {num};
    b.(inflight := left, inflightIds := b.inflightIds - {id}, ids := Last(b.ids + [id], KEPT),
    floor := Max(b.floor, Safe(left, b.highest)))
  }

  class CommandLedger {
    var inflight: set<int>
    var inflightIds: set<string>
    var ids: seq<string>
    var highest: int
    var floor: int

    function View(): (b: Book)
      reads this
    {
      Book(inflight, inflightIds, ids, highest, floor)
    }

    constructor (cursor: int, handled: seq<string>)
      ensures View() == Opened(cursor, handled)
    {
      floor, highest, ids := cursor, cursor, handled;
      inflight, inflightIds := {}, {};
    }

    method HasSeen(num: int, id: string) returns (r: bool)
      ensures r == Seen(View(), num, id)
    {
      r := num <= floor || num in inflight || id in inflightIds || id in ids;
    }

    method Start(num: int, id: string)
      modifies this
      ensures View() == Begin(old(View()), num, id)
    {
      inflight := inflight + {num};
      inflightIds := inflightIds + {id};
      highest := if highest >= num then highest else num;
    }

    method Finish(num: int, id: string)
      modifies this
      ensures View() == End(old(View()), num, id)
    {
      inflight := inflight - {num};
      inflightIds := inflightIds - {id};
      ids := ids + [id];
      if |ids| > KEPT {
        ids := ids[|ids| - KEPT..];
      }
      var safe := highest;
      if inflight != {} {
        var least := Least(inflight);
        safe := least - 1;
      }
      floor := if floor >= safe then floor else safe;
    }
  }

  /** `Math.min(...s)`. */
  method Least(s: set<int>) returns (m: int)
    requires s != {}
    ensures m == Min(s)
  {
    SomeMember(s);
    m :| m in s;
    var rest := s - {m};
    while rest != {}
      invariant rest <= s && m in s
      invariant forall x :: x in s && x !in rest ==> m <= x
      decreases rest
    {
      SomeMember(rest);
      var x :| x in rest;
      if x < m {
        m := x;
      }
      rest := rest - {x};
    }
  }

  // ----- runs -----

  datatype Command = Command(num: int, id: string)

  /** connector.json as saved: with the commands whose ends it counts. */
  datatype Saved = Saved(cursor: int, ids: seq<string>, ends: seq<Command>)

  /** A command begun, and how many ends the state counted at that moment. */
  datatype Start = Start(c: Command, at: nat)

  /**
   `log` are the commands the server has ever had for this connector, `offered` how many of them
   this run has been offered (from the first), `reported` the cursor the server was told.
   `ended` are the commands that ended in any run, `ends` those the current state descends from,
   in order; `saves` the snapshots asked for in this run and `disk` the one that landed last;
   `begun` what this run has begun.
   */
  datatype World = World(log: seq<Command>, book: Book, offered: nat, reported: int, ended: set<Command>,
                         ends: seq<Command>, saves: seq<Saved>, landed: nat, disk: Saved, begun: seq<Start>)

  datatype Step =
    | Issue(c: Command)       // the server takes a new command
    | Offer(k: nat)           // a command comes down the stream: one offered before, or the next
    | Skip                    // the server does not send again what it was told is handled
    | Handled(c: Command)     // the command counts as carried out
    | Heartbeat
    | Land(k: nat)            // a snapshot reaches the disk, never an older one than is there
    | Crash

  function Current(w: World): (s: Saved) {
    Saved(w.book.floor, w.book.ids, w.ends)
  }

  /** Numbers and ids the server gives out: positive, rising, each id once. */
  ghost predicate NextCommand(log: seq<Command>, c: Command) {
    && c.num > 0
    && forall d :: d in log ==> d.num < c.num && d.id != c.id
  }

  ghost predicate Enabled(w: World, s: Step) {
    match s
    case Issue(c) => NextCommand(w.log, c)
    case Offer(k) => k <= w.offered && k < |w.log|
    case Skip => w.offered < |w.log| && w.log[w.offered].num <= Max(w.reported, w.book.floor)
    case Handled(c) => c in w.log && c.num in w.book.inflight
    case Heartbeat => true
    case Land(k) => w.landed <= k < |w.saves|
    case Crash => true
  }

  ghost function Apply(w: World, s: Step): (r: World)
    requires Enabled(w, s)
  {
    match s
    case Issue(c) => w.(log := w.log + [c])
    case Offer(k) =>
      var c := w.log[k];
      var w' := w.(offered := if k == w.offered then k + 1 else w.offered);
      if Seen(w.book, c.num, c.id) then w'
      else w'.(book := Begin(w.book, c.num, c.id), begun := w.begun + [Start(c, |w.ends|)])
    case Skip => w.(offered := w.offered + 1)
    case Handled(c) =>
      var w' := w.(book := End(w.book, c.num, c.id), ended := w.ended + {c}, ends := w.ends + [c]);
      w'.(saves := w.saves + [Current(w')])
    case Heartbeat => w.(reported := Max(w.reported, w.book.floor), saves := w.saves + [Current(w)])
    case Land(k) => w.(landed := k, disk := w.saves[k])
    case Crash =>
      w.(book := Opened(w.disk.cursor, w.disk.ids), offered := 0, ends := w.disk.ends, saves := [], landed := 0,
      begun := [])
  }

  function First(): (w: World) {
    World([], Opened(0, []), 0, 0, {}, [], [], 0, Saved(0, [], []), [])
  }

  ghost predicate Legal(w: World, steps: seq<Step>)
    decreases |steps|
  {
    steps == [] || (Enabled(w, steps[0]) && Legal(Apply(w, steps[0]), steps[1..]))
  }

  ghost function Run(w: World, steps: seq<Step>): (r: World)
    requires Legal(w, steps)
    decreases |steps|
  {
    if steps == [] then w else Run(Apply(w, steps[0]), steps[1..])
  }

  // ----- what every run keeps -----

  ghost predicate Numbered(log: seq<Command>) {
    && (forall i :: 0 <= i < |log| ==> log[i].num > 0)
    && (forall i, j :: 0 <= i < j < |log| ==> log[i].num < log[j].num && log[i].id != log[j].id)
  }

  /** Every command at or below `n` has ended. */
  ghost predicate EndedUpTo(log: seq<Command>, ended: set<Command>, n: int) {
    forall c :: c in log && c.num <= n ==> c in ended
  }

  /** No command the server has yet to take can be at or below `n`. */
  ghost predicate WithinLog(log: seq<Command>, n: int) {
    n <= 0 || exists c :: c in log && n <= c.num
  }

  function Ids(ends: seq<Command>): (r: seq<string>) {
    seq(|ends|, i requires 0 <= i < |ends| => ends[i].id)
  }

  ghost predicate GoodSave(log: seq<Command>, ended: set<Command>, s: Saved) {
    && EndedUpTo(log, ended, s.cursor) && WithinLog(log, s.cursor)
    && s.ids == Last(Ids(s.ends), KEPT)
    && (forall c :: c in s.ends ==> c in ended && c in log)
  }

  /** What is under way is known, above the cursor, and with what has ended covers everything up to `highest`. */
  ghost predicate Flight(log: seq<Command>, ended: set<Command>, b: Book) {
    && WithinLog(log, b.highest)
    && b.floor <= b.highest
    && (forall n :: n in b.inflight ==> b.floor < n <= b.highest)
    && (forall x :: x in b.inflightIds ==> exists c :: c in log && c.id == x && c.num in b.inflight)
    && (forall c :: c in log && c.num in b.inflight ==> c.id in b.inflightIds)
    && (forall c :: c in log && c.num <= b.highest ==> c in ended || c.num in b.inflight)
  }

  ghost predicate Offers(log: seq<Command>, ended: set<Command>, inflight: set<int>, offered: nat) {
    && offered <= |log|
    && (forall k :: 0 <= k < offered ==> log[k] in ended || log[k].num in inflight)
  }

  ghost predicate Saves(log: seq<Command>, ended: set<Command>, w: World) {
    && GoodSave(log, ended, Current(w))
    && GoodSave(log, ended, w.disk)
    && (forall i :: 0 <= i < |w.saves| ==> GoodSave(log, ended, w.saves[i]))
    && EndedUpTo(log, ended, w.reported) && WithinLog(log, w.reported)
  }

  /** The command begun has ended since, and its end is counted. */
  predicate EndedSince(s: Start, ends: seq<Command>) {
    s.at <= |ends| && s.c in ends[s.at..]
  }

  /** Between two begins of one command lie its end and at least `KEPT` further ends. */
  predicate FarApart(begun: seq<Start>) {
    forall i, j :: 0 <= i < j < |begun| && begun[i].c == begun[j].c ==> begun[i].at + KEPT < begun[j].at
  }

  ghost predicate Begins(log: seq<Command>, inflight: set<int>, ends: seq<Command>, begun: seq<Start>) {
    && (forall s :: s in begun ==> s.c in log && s.at <= |ends|)
    && (forall s :: s in begun ==> s.c.num in inflight || EndedSince(s, ends))
    && FarApart(begun)
  }

  ghost predicate Inv(w: World) {
    && Numbered(w.log)
    && Saves(w.log, w.ended, w)
    && Flight(w.log, w.ended, w.book)
    && Offers(w.log, w.ended, w.book.inflight, w.offered)
    && Begins(w.log, w.book.inflight, w.ends, w.begun)
  }

  lemma LastOfAppend<T>(s: seq<T>, x: T, n: nat)
    requires n > 0
    ensures Last(Last(s, n) + [x], n) == Last(s + [x], n)
  {
  }

  /** A command of a longer log that is not above what an earlier log reached was already in that log. */
  lemma NotLater(log: seq<Command>, log': seq<Command>, n: int, i: nat)
    requires log <= log' && Numbered(log') && WithinLog(log, n)
    requires i < |log'| && log'[i].num <= n
    ensures i < |log|
  {
    var d :| d in log && n <= d.num;
    var j :| 0 <= j < |log| && log[j] == d;
    assert log'[j] == d;
    assert i <= j;
  }

  lemma MoreEnded(log: seq<Command>, ended: set<Command>, log': seq<Command>, ended': set<Command>, n: int)
    requires EndedUpTo(log, ended, n) && WithinLog(log, n)
    requires log <= log' && ended <= ended' && Numbered(log')
    ensures EndedUpTo(log', ended', n) && WithinLog(log', n)
  {
    forall c | c in log' && c.num <= n ensures c in ended' {
      var i :| 0 <= i < |log'| && log'[i] == c;
      NotLater(log, log', n, i);
      assert log[i] == c;
    }
    if n > 0 {
      var d :| d in log && n <= d.num;
      var j :| 0 <= j < |log| && log[j] == d;
      assert log'[j] == d;
    }
  }

  lemma SaveStaysGood(log: seq<Command>, ended: set<Command>, log': seq<Command>, ended': set<Command>, s: Saved)
    requires GoodSave(log, ended, s) && log <= log' && ended <= ended' && Numbered(log')
    ensures GoodSave(log', ended', s)
  {
    MoreEnded(log, ended, log', ended', s.cursor);
    forall c | c in s.ends ensures c in log' {
      var j :| 0 <= j < |log| && log[j] == c;
      assert log'[j] == c;
    }
  }

  lemma SavesStayGood(w: World, log': seq<Command>, ended': set<Command>)
    requires Saves(w.log, w.ended, w) && w.log <= log' && w.ended <= ended' && Numbered(log')
    ensures Saves(log', ended', w)
  {
    hide GoodSave, EndedUpTo, WithinLog;
    SaveStaysGood(w.log, w.ended, log', ended', Current(w));
    SaveStaysGood(w.log, w.ended, log', ended', w.disk);
    MoreEnded(w.log, w.ended, log', ended', w.reported);
    forall i | 0 <= i < |w.saves| ensures GoodSave(log', ended', w.saves[i]) {
      SaveStaysGood(w.log, w.ended, log', ended', w.saves[i]);
    }
  }

  lemma IssueKeepsFlight(log: seq<Command>, ended: set<Command>, b: Book, c: Command)
    requires Numbered(log) && Flight(log, ended, b) && NextCommand(log, c)
    ensures Numbered(log + [c]) && Flight(log + [c], ended, b)
  {
    var log' := log + [c];
    assert forall i :: 0 <= i < |log| ==> log[i] in log;
    assert Numbered(log');
    if b.highest > 0 {
      var d :| d in log && b.highest <= d.num;
      assert d in log';
    }
    forall d | d in log' && (d.num <= b.highest || d.num in b.inflight) ensures d in log {
      var i :| 0 <= i < |log'| && log'[i] == d;
      NotLater(log, log', b.highest, i);
    }
    assert forall d :: d in log ==> d in log';
  }

  lemma IssueKeeps(w: World, c: Command)
    requires Inv(w) && Enabled(w, Issue(c))
    ensures Inv(Apply(w, Issue(c)))
  {
    hide Flight, Numbered, Saves, EndedSince, FarApart;
    IssueKeepsFlight(w.log, w.ended, w.book, c);
    SavesStayGood(w, w.log + [c], w.ended);
    SameSaves(w, w.(log := w.log + [c]), w.log + [c], w.ended);
  }

  /** The saves invariant reads only the cursor, the ids, the ends, the disk and what was reported. */
  lemma SameSaves(w: World, w': World, log: seq<Command>, ended: set<Command>)
    requires Saves(log, ended, w)
    requires Current(w') == Current(w) && w'.disk == w.disk && w'.saves == w.saves && w'.reported == w.reported
    ensures Saves(log, ended, w')
  {
  }

  lemma SamePlace(log: seq<Command>, c: Command, d: Command)
    requires Numbered(log) && c in log && d in log && (c.num == d.num || c.id == d.id)
    ensures c == d
  {
    var i :| 0 <= i < |log| && log[i] == c;
    var j :| 0 <= j < |log| && log[j] == d;
    assert i == j;
  }

  /** The remembered ids are those of the last `KEPT` ends. */
  lemma RememberedIds(log: seq<Command>, ends: seq<Command>, c: Command)
    requires Numbered(log) && c in log && forall d :: d in ends ==> d in log
    ensures c.id in Last(Ids(ends), KEPT) <==> c in Last(ends, KEPT)
  {
    var ids, last := Last(Ids(ends), KEPT), Last(ends, KEPT);
    assert |ids| == |last| && forall i :: 0 <= i < |ids| ==> ids[i] == last[i].id && last[i] in ends;
    if c.id in ids {
      var i :| 0 <= i < |ids| && ids[i] == c.id;
      SamePlace(log, c, last[i]);
    }
    if c in last {
      var i :| 0 <= i < |last| && last[i] == c;
      assert ids[i] == c.id;
    }
  }

  /** What a run knows of an offered command: it has ended, is under way, or is begun now. */
  lemma SeenExactly(w: World, c: Command)
    requires Inv(w) && c in w.log
    ensures Seen(w.book, c.num, c.id) <==>
            c.num <= w.book.floor || c.num in w.book.inflight || c in Last(w.ends, KEPT)
    ensures Seen(w.book, c.num, c.id) ==> c in w.ended || c.num in w.book.inflight
  {
    hide Last, Offers, Begins;
    assert GoodSave(w.log, w.ended, Current(w));
    RememberedIds(w.log, w.ends, c);
    LastIn(w.ends, c, KEPT);
    if c.id in w.book.inflightIds {
      var d :| d in w.log && d.id == c.id && d.num in w.book.inflight;
      SamePlace(w.log, c, d);
    }
  }

  lemma LastIn<T>(s: seq<T>, x: T, n: nat)
    ensures x in Last(s, n) ==> x in s
  {
  }

  /** An end no more than `KEPT` back is remembered. */
  lemma RecentIsKept(ends: seq<Command>, p: nat)
    requires p < |ends| <= p + KEPT
    ensures ends[p] in Last(ends, KEPT)
  {
    var last := Last(ends, KEPT);
    assert last[p - (|ends| - |last|)] == ends[p];
  }

  /** Every counted end of a command that is not remembered lies more than `KEPT` back. */
  lemma ForgottenIsOld(ends: seq<Command>, c: Command)
    requires c !in Last(ends, KEPT)
    ensures forall p :: 0 <= p < |ends| && ends[p] == c ==> p + KEPT < |ends|
  {
    hide Last;
    forall p | 0 <= p < |ends| && |ends| <= p + KEPT ensures ends[p] in Last(ends, KEPT) {
      RecentIsKept(ends, p);
    }
  }

  lemma BeginKeepsFlight(log: seq<Command>, ended: set<Command>, b: Book, offered: nat, k: nat)
    requires Numbered(log) && Flight(log, ended, b) && Offers(log, ended, b.inflight, offered)
    requires k <= offered && k < |log| && b.floor < log[k].num
    ensures Flight(log, ended, Begin(b, log[k].num, log[k].id))
  {
    var c := log[k];
    var b' := Begin(b, c.num, c.id);
    assert c in log;
    forall x | x in b'.inflightIds ensures exists d :: d in log && d.id == x && d.num in b'.inflight {
      if x != c.id {
        var d :| d in log && d.id == x && d.num in b.inflight;
        assert d.num in b'.inflight;
      } else {
        assert c.num in b'.inflight;
      }
    }
    forall d | d in log && d.num in b'.inflight ensures d.id in b'.inflightIds {
      if d.num == c.num {
        SamePlace(log, c, d);
      }
    }
    forall d | d in log && d.num <= b'.highest ensures d in ended || d.num in b'.inflight {
      if b.highest < d.num {
        var i :| 0 <= i < |log| && log[i] == d;
        assert i <= k;
      }
    }
  }

  lemma BeginKeepsBegins(log: seq<Command>, inflight: set<int>, ends: seq<Command>, begun: seq<Start>, c: Command)
    requires Begins(log, inflight, ends, begun)
    requires c in log && c.num !in inflight && c !in Last(ends, KEPT)
    ensures Begins(log, inflight + {c.num}, ends, begun + [Start(c, |ends|)])
  {
    hide Last;
    ForgottenIsOld(ends, c);
    var begun' := begun + [Start(c, |ends|)];
    forall i | 0 <= i < |begun| && begun[i].c == c ensures begun[i].at + KEPT < |ends| {
      var s := begun[i];
      assert s in begun;
      var q :| 0 <= q < |ends[s.at..]| && ends[s.at..][q] == c;
      assert ends[s.at + q] == c;
    }
    assert FarApart(begun');
  }

  lemma OfferKeeps(w: World, k: nat)
    requires Inv(w) && Enabled(w, Offer(k))
    ensures Inv(Apply(w, Offer(k)))
  {
    hide Flight, Numbered, Saves, EndedSince, FarApart, Last, Seen, Begins;
    var c := w.log[k];
    SeenExactly(w, c);
    var w' := Apply(w, Offer(k));
    SameSaves(w, w', w.log, w.ended);
    if !Seen(w.book, c.num, c.id) {
      BeginKeepsFlight(w.log, w.ended, w.book, w.offered, k);
      BeginKeepsBegins(w.log, w.book.inflight, w.ends, w.begun, c);
    }
  }

  lemma EndKeepsFlight(log: seq<Command>, ended: set<Command>, b: Book, c: Command)
    requires Numbered(log) && Flight(log, ended, b) && EndedUpTo(log, ended, b.floor)
    requires c in log && c.num in b.inflight
    ensures Flight(log, ended + {c}, End(b, c.num, c.id))
    ensures EndedUpTo(log, ended + {c}, End(b, c.num, c.id).floor)
    ensures WithinLog(log, End(b, c.num, c.id).floor)
  {
    hide Last;
    var b' := End(b, c.num, c.id);
    forall d | d in log && d.num == c.num ensures d == c {
      SamePlace(log, c, d);
    }
    forall d | d in log && d.id == c.id ensures d == c {
      SamePlace(log, c, d);
    }
    forall x | x in b'.inflightIds ensures exists d :: d in log && d.id == x && d.num in b'.inflight {
      var d :| d in log && d.id == x && d.num in b.inflight;
      assert d.num in b'.inflight;
    }
  }

  lemma EndKeepsBegins(log: seq<Command>, inflight: set<int>, ends: seq<Command>, begun: seq<Start>, c: Command)
    requires Numbered(log) && Begins(log, inflight, ends, begun) && c in log
    ensures Begins(log, inflight - {c.num}, ends + [c], begun)
  {
    forall s | s in begun ensures s.c.num in inflight - {c.num} || EndedSince(s, ends + [c]) {
      assert (ends + [c])[s.at..] == ends[s.at..] + [c];
      if s.c.num == c.num {
        SamePlace(log, c, s.c);
      }
    }
  }

  lemma EndedIsGoodSave(log: seq<Command>, ended: set<Command>, s: Saved, c: Command, cursor: int)
    requires GoodSave(log, ended, s) && c in log
    requires EndedUpTo(log, ended + {c}, cursor) && WithinLog(log, cursor)
    ensures GoodSave(log, ended + {c}, Saved(cursor, Last(s.ids + [c.id], KEPT), s.ends + [c]))
  {
    assert Ids(s.ends + [c]) == Ids(s.ends) + [c.id];
    LastOfAppend(Ids(s.ends), c.id, KEPT);
  }

  lemma HandledKeeps(w: World, c: Command)
    requires Inv(w) && Enabled(w, Handled(c))
    ensures Inv(Apply(w, Handled(c)))
  {
    hide Flight, Numbered, EndedUpTo, WithinLog, Last, Begins;
    EndKeepsFlight(w.log, w.ended, w.book, c) by {
      assert GoodSave(w.log, w.ended, Current(w));
    }
    EndKeepsBegins(w.log, w.book.inflight, w.ends, w.begun, c);
    SavesStayGood(w, w.log, w.ended + {c});
    EndedIsGoodSave(w.log, w.ended, Current(w), c, End(w.book, c.num, c.id).floor);
    forall k | 0 <= k < w.offered ensures w.log[k] in w.ended + {c} || w.log[k].num in w.book.inflight - {c.num} {
      if w.log[k].num == c.num {
        SamePlace(w.log, c, w.log[k]);
      }
    }
  }

  lemma CrashKeeps(w: World)
    requires Inv(w)
    ensures Inv(Apply(w, Crash))
  {
    hide Numbered, Last;
  }

  lemma SkipKeeps(w: World)
    requires Inv(w) && Enabled(w, Skip)
    ensures Inv(Apply(w, Skip))
  {
    hide Numbered, Last, Flight, Begins;
    SameSaves(w, Apply(w, Skip), w.log, w.ended);
  }

  lemma StepKeeps(w: World, s: Step)
    requires Inv(w) && Enabled(w, s)
    ensures Inv(Apply(w, s))
  {
    hide Numbered, Last, Flight, Begins, Offers, GoodSave, EndedUpTo, WithinLog;
    match s
    case Issue(c) => IssueKeeps(w, c);
    case Offer(k) => OfferKeeps(w, k);
    case Skip => SkipKeeps(w);
    case Handled(c) => HandledKeeps(w, c);
    case Heartbeat => HeartbeatKeeps(w);
    case Land(k) =>
    case Crash => CrashKeeps(w);
  }

  lemma HeartbeatKeeps(w: World)
    requires Inv(w)
    ensures Inv(Apply(w, Heartbeat))
  {
    hide Numbered, Last, Flight, Begins, Offers;
    assert GoodSave(w.log, w.ended, Current(w));
  }

  lemma {:induction false} RunKeeps(w: World, steps: seq<Step>)
    requires Inv(w) && Legal(w, steps)
    ensures Inv(Run(w, steps))
    decreases |steps|
  {
    hide Inv, Apply, Enabled;
    if steps != [] {
      StepKeeps(w, steps[0]);
      RunKeeps(Apply(w, steps[0]), steps[1..]);
    }
  }

  // ----- results -----

  lemma FirstInv()
    ensures Inv(First())
  {
    assert Ids([]) == [];
  }

  /**
   In every run, with restarts from whatever reached the disk: the cursor is below everything under way,
   and every command at or below the cursor, below what the server was told, or below what a restart
   would resume from, has ended.
   */
  lemma CursorIsSafe(steps: seq<Step>)
    requires Legal(First(), steps)
    ensures var w := Run(First(), steps);
            && (forall n :: n in w.book.inflight ==> w.book.floor < n)
            && (forall c :: c in w.log && (c.num <= w.book.floor || c.num <= w.reported || c.num <= w.disk.cursor) ==>
                  c in w.ended)
  {
    FirstInv();
    RunKeeps(First(), steps);
  }

  /** Until a restart, the cursor never decreases; what the server was told never does. */
  lemma {:induction false} CursorNeverGoesBack(w: World, steps: seq<Step>)
    requires Legal(w, steps)
    ensures w.reported <= Run(w, steps).reported
    ensures Crash !in steps ==> w.book.floor <= Run(w, steps).book.floor
    decreases |steps|
  {
    if steps != [] {
      assert w.book.floor <= Apply(w, steps[0]).book.floor || steps[0] == Crash;
      CursorNeverGoesBack(Apply(w, steps[0]), steps[1..]);
      assert forall s :: s in steps[1..] ==> s in steps;
    }
  }

  /**
   Exactly when an offered command begins: it is above the cursor, not under way, and its end is not among
   the last `KEPT` the state counts. So one whose end is counted, in this run or in the saved state a
   restart resumed from, begins again only once `KEPT` later ones have ended.
   */
  lemma BeginsExactlyWhen(steps: seq<Step>, k: nat)
    requires Legal(First(), steps) && Enabled(Run(First(), steps), Offer(k))
    ensures var w := Run(First(), steps);
            var c := w.log[k];
            var begins := Apply(w, Offer(k)).begun != w.begun;
            && (begins <==> w.book.floor < c.num && c.num !in w.book.inflight && c !in Last(w.ends, KEPT))
            && (begins ==> forall p :: 0 <= p < |w.ends| && w.ends[p] == c ==> p + KEPT < |w.ends|)
  {
    hide Last, Seen, Inv;
    FirstInv();
    RunKeeps(First(), steps);
    var w := Run(First(), steps);
    SeenExactly(w, w.log[k]);
    if w.log[k] !in Last(w.ends, KEPT) {
      ForgottenIsOld(w.ends, w.log[k]);
    }
  }

  /** Two begins of one command in one run lie its end and at least `KEPT` further ends apart. */
  lemma BeginsFarApart(steps: seq<Step>)
    requires Legal(First(), steps)
    ensures FarApart(Run(First(), steps).begun)
  {
    hide FarApart, Saves, Flight, Offers, Numbered;
    FirstInv();
    RunKeeps(First(), steps);
  }

  /** Nothing is offered a second time before a restart. */
  ghost predicate InOrder(w: World, steps: seq<Step>)
    requires Legal(w, steps)
    decreases |steps|
  {
    steps == [] || ((steps[0].Offer? ==> steps[0].k == w.offered) && InOrder(Apply(w, steps[0]), steps[1..]))
  }

  ghost predicate Rising(log: seq<Command>, begun: seq<Start>, offered: nat) {
    && offered <= |log|
    && (forall s :: s in begun ==> s.c in log[..offered])
    && (forall i, j :: 0 <= i < j < |begun| ==> begun[i].c.num < begun[j].c.num)
  }

  lemma StepKeepsRising(w: World, s: Step)
    requires Numbered(w.log) && Rising(w.log, w.begun, w.offered) && Enabled(w, s)
    requires s.Offer? ==> s.k == w.offered
    ensures Rising(Apply(w, s).log, Apply(w, s).begun, Apply(w, s).offered)
  {
    hide Seen;
    var w' := Apply(w, s);
    if w'.offered >= w.offered {
      assert w'.log[..w'.offered] == w.log[..w.offered] + w'.log[w.offered..w'.offered];
    }
    if s.Offer? {
      assert w.log[s.k] == w'.log[..w'.offered][s.k];
      forall i | 0 <= i < |w.begun| ensures w.begun[i].c.num < w.log[s.k].num {
        assert w.begun[i] in w.begun;
      }
    }
  }

  lemma {:induction false} RunKeepsRising(w: World, steps: seq<Step>)
    requires Inv(w) && Rising(w.log, w.begun, w.offered) && Legal(w, steps) && InOrder(w, steps)
    ensures var r := Run(w, steps); Rising(r.log, r.begun, r.offered)
    decreases |steps|
  {
    hide Apply, Enabled, Rising, Saves, Flight, Offers, Begins, Numbered;
    if steps != [] {
      StepKeeps(w, steps[0]);
      StepKeepsRising(w, steps[0]);
      RunKeepsRising(Apply(w, steps[0]), steps[1..]);
    }
  }

  /** With nothing offered twice, no command begins twice in a run: commands begin in the order of their numbers. */
  lemma InOrderBeginsOnce(steps: seq<Step>)
    requires Legal(First(), steps) && InOrder(First(), steps)
    ensures var begun := Run(First(), steps).begun;
            forall i, j :: 0 <= i < j < |begun| ==> begun[i].c.num < begun[j].c.num
  {
    hide Inv, Legal, Run, InOrder;
    FirstInv();
    RunKeepsRising(First(), steps);
  }
}

/**
 Model of `SnapshotFile` (connector/src/statefile.ts): a small file rewritten whole in the
 background, one write at a time, always with the newest content.

 `Core` is what the object holds between two awaits; `SnapshotFile` is the object itself, its
 methods cut at the one `await` of `drain` (a write starts in one method and finishes in
 another).  `World` adds the disk and a record of everything saved, asked and answered, so that
 a run is a sequence of `Step`s in any order the event loop allows.
 */
module Snapshot {
  import opened Wrappers

  /** A caller of `settled`: it wants save number `upTo` (or a newer one) on disk. */
  datatype Waiter = Waiter(id: nat, upTo: nat)

  /** The write under way: the content of save number `upTo`. */
  datatype Write<+D> = Write(upTo: nat, data: D)

  datatype Core<+D> = Core(latest: D, saved: nat, written: nat, failed: nat,
                           running: Option<Write<D>>, waiters: seq<Waiter>)

  /** The `while` condition of `drain`: something newer than the file, not yet tried in vain. */
  predicate Due<D>(c: Core<D>) {
    c.written < c.saved && c.failed < c.saved
  }

  /** `drain` up to its `await`: start a write of the newest content, or end. */
  function Drain<D>(c: Core<D>): (r: Core<D>) {
    c.(running := if Due(c) then Some(Write(c.saved, c.latest)) else None)
  }

  function Saved<D>(c: Core<D>, data: D): (r: Core<D>) {
    var c' := c.(latest := data, saved := c.saved + 1);
    if c.running.Some? then c' else Drain(c')
  }

  function Asked<D>(c: Core<D>, id: nat): (r: Core<D>) {
    if c.written >= c.saved then c
    else
      var c' := c.(waiters := c.waiters + [Waiter(id, c.saved)]);
      if c.running.Some? then c' else Drain(c'.(failed := c.written))
  }

  /** The waiters a finished write of save number `upTo` says nothing about, in order. */
  function Later(ws: seq<Waiter>, upTo: nat): (r: seq<Waiter>) {
    if ws == [] then []
    else if ws[0].upTo > upTo then [ws[0]] + Later(ws[1..], upTo)
    else Later(ws[1..], upTo)
  }

  /** After the `await` in `drain`: count the write, answer those it settles, go round again. */
  function Finished<D>(c: Core<D>, ok: bool): (r: Core<D>)
    requires c.running.Some?
  {
    var upTo := c.running.value.upTo;
    var c' := if ok then c.(written := upTo) else c.(failed := upTo);
    Drain(c'.(waiters := Later(c.waiters, upTo)))
  }

  /** The object.  A promise handed out by `settled` is a waiter's number. */
  class SnapshotFile<D> {
    var latest: D
    var saved: nat
    var written: nat
    var failed: nat
    var running: Option<Write<D>>
    var waiters: seq<Waiter>

    function View(): (c: Core<D>)
      reads this
    {
      Core(latest, saved, written, failed, running, waiters)
    }

    constructor (nothing: D)
      ensures View() == Core(nothing, 0, 0, 0, None, [])
    {
      latest, saved, written, failed, running, waiters := nothing, 0, 0, 0, None, [];
    }

    method Save(data: D)
      modifies this
      ensures View() == Saved(old(View()), data)
    {
      latest := data;
      saved := saved + 1;
      if running.None? {
        StartDrain();
      }
    }

    /** `now` is the answer when it is known at once; otherwise waiter `id` is answered later. */
    method Settled(id: nat) returns (now: Option<bool>)
      modifies this
      ensures View() == Asked(old(View()), id)
      ensures now == if old(written) >= old(saved) then Some(true) else None
    {
      var upTo := saved;
      if written >= upTo {
        return Some(true);
      }
      waiters := waiters + [Waiter(id, upTo)];
      if running.None? {
        failed := written;
        StartDrain();
      }
      return None;
    }

    method StartDrain()
      modifies this
      ensures View() == Drain(old(View()))
    {
      running := if written < saved && failed < saved then Some(Write(saved, latest)) else None;
    }

    /** The write came back: count it, answer those it settles, go round again. */
    method WriteFinished(ok: bool) returns (answered: seq<Waiter>)
      requires running.Some?
      modifies this
      ensures View() == Finished(old(View()), ok)
      ensures answered == Sooner(old(waiters), old(running.value.upTo))
    {
      var upTo := running.value.upTo;
      if ok {
        written := upTo;
      } else {
        failed := upTo;
      }
      waiters, answered := SpliceSettled(waiters, upTo);
      StartDrain();
    }
  }

  /** The waiters a finished write of save number `upTo` answers, the last one first. */
  function Sooner(ws: seq<Waiter>, upTo: nat): (r: seq<Waiter>) {
    if ws == [] then [] else Sooner(ws[1..], upTo) + if ws[0].upTo <= upTo then [ws[0]] else []
  }

  /** A finished write splits the waiters: each is answered, or goes on waiting for a later save. */
  lemma {:induction false} SoonerOrLater(ws: seq<Waiter>, upTo: nat)
    ensures forall w :: w in Later(ws, upTo) <==> w in ws && w.upTo > upTo
    ensures forall w :: w in Sooner(ws, upTo) <==> w in ws && w.upTo <= upTo
  {
    if ws != [] {
      assert ws == [ws[0]] + ws[1..];
      SoonerOrLater(ws[1..], upTo);
    }
  }

  /** The loop over `waiters` in `drain`: from the last to the first, splicing out those it answers. */
  method SpliceSettled(waiters: seq<Waiter>, upTo: nat) returns (left: seq<Waiter>, answered: seq<Waiter>)
    ensures left == Later(waiters, upTo)
    ensures answered == Sooner(waiters, upTo)
  {
    left, answered := waiters, [];
    var i := |left|;
    while i > 0
      invariant 0 <= i <= |waiters|
      invariant left == waiters[..i] + Later(waiters[i..], upTo)
      invariant answered == Sooner(waiters[i..], upTo)
    {
      i := i - 1;
      var w := left[i];
      assert waiters[i..][1..] == waiters[i + 1..];
      assert left[i + 1..] == Later(waiters[i + 1..], upTo);
      if w.upTo <= upTo {
        left := left[..i] + left[i + 1..];
        answered := answered + [w];
      }
    }
  }

  // ----- runs: any interleaving of saves, waits, writes that land and writes that fail -----

  /**
   The object with its disk.  `history[k]` is the content of save number k (`history[0]` is what
   the file held before), `fileNo` the number of the save the file holds, `asked[id]` the number
   a waiter wanted, `answers[id]` what it was told.
   */
  datatype World<+D> = World(core: Core<D>, file: D, fileNo: nat, history: seq<D>,
                             asked: map<nat, nat>, answers: map<nat, bool>)

  datatype Step<+D> =
    | SaveStep(data: D)
    | AskStep(id: nat)
    | LandStep              // the rename of the write under way
    | FinishStep(ok: bool)  // `drain` goes on after the write

  predicate HasLanded<D>(w: World<D>) {
    w.core.running.Some? && w.fileNo == w.core.running.value.upTo
  }

  predicate Enabled<D>(w: World<D>, s: Step<D>) {
    match s
    case SaveStep(_) => true
    case AskStep(id) => id !in w.asked
    case LandStep => w.core.running.Some? && !HasLanded(w)
    case FinishStep(ok) => w.core.running.Some? && ok == HasLanded(w)
  }

  function IdsUpTo(ws: seq<Waiter>, upTo: nat): (ids: set<nat>) {
    set w | w in Sooner(ws, upTo) :: w.id
  }

  /** The answers after a write of save number `upTo` has been counted. */
  function Told(ws: seq<Waiter>, upTo: nat, ok: bool, answers: map<nat, bool>): (r: map<nat, bool>) {
    var settled := IdsUpTo(ws, upTo);
    answers + map id | id in settled :: ok
  }

  function Apply<D>(w: World<D>, s: Step<D>): (r: World<D>)
    requires Enabled(w, s)
  {
    match s
    case SaveStep(data) => w.(core := Saved(w.core, data), history := w.history + [data])
    case AskStep(id) =>
      w.(core := Asked(w.core, id), asked := w.asked[id := w.core.saved],
      answers := if w.core.written >= w.core.saved then w.answers[id := true] else w.answers)
    case LandStep => w.(file := w.core.running.value.data, fileNo := w.core.running.value.upTo)
    case FinishStep(ok) =>
      w.(core := Finished(w.core, ok),
      answers := Told(w.core.waiters, w.core.running.value.upTo, ok, w.answers))
  }

  /** A process that has just opened a file holding `content`. */
  function Opened<D>(content: D): (w: World<D>) {
    World(Core(content, 0, 0, 0, None, []), content, 0, [content], map[], map[])
  }

  ghost predicate Legal<D>(w: World<D>, steps: seq<Step<D>>)
    decreases |steps|
  {
    steps == [] || (Enabled(w, steps[0]) && Legal(Apply(w, steps[0]), steps[1..]))
  }

  ghost function Run<D>(w: World<D>, steps: seq<Step<D>>): (r: World<D>)
    requires Legal(w, steps)
    decreases |steps|
  {
    if steps == [] then w else Run(Apply(w, steps[0]), steps[1..])
  }

  /** The counters, the write under way and the file agree with what was saved. */
  ghost predicate FileAgrees<D>(w: World<D>) {
    var c := w.core;
    && |w.history| == c.saved + 1
    && c.latest == w.history[c.saved]
    && c.written <= w.fileNo <= c.saved
    && c.failed <= c.saved
    && w.file == w.history[w.fileNo]
    && match c.running
       case None => w.fileNo == c.written && (c.written == c.saved || c.failed == c.saved)
       case Some(wr) =>
         && c.written < wr.upTo <= c.saved
         && c.failed < wr.upTo
         && wr.data == w.history[wr.upTo]
         && (w.fileNo == c.written || w.fileNo == wr.upTo)
  }

  /** Every asker is answered or still waits, and waits only for a write that is under way or will follow. */
  ghost predicate AskersAgree<D>(w: World<D>) {
    var c := w.core;
    && (c.running.None? ==> c.waiters == [])
    && (forall x :: x in c.waiters ==> x.id in w.asked && w.asked[x.id] == x.upTo && c.written < x.upTo <= c.saved)
    && (forall x :: x in c.waiters ==> x.id !in w.answers)
    && (forall id :: id in w.asked && id !in w.answers ==> Waiter(id, w.asked[id]) in c.waiters)
    && (forall id :: id in w.answers ==> id in w.asked)
    && (forall id :: id in w.answers && w.answers[id] ==> w.asked[id] <= w.fileNo)
  }

  ghost predicate Inv<D>(w: World<D>) {
    FileAgrees(w) && AskersAgree(w)
  }

  lemma AskKeepsInv<D>(w: World<D>, id: nat)
    requires Inv(w) && id !in w.asked
    ensures Inv(Apply(w, AskStep(id)))
  {
    var c' := Apply(w, AskStep(id)).core;
    assert c'.waiters == w.core.waiters || c'.waiters == w.core.waiters + [Waiter(id, w.core.saved)];
  }

  lemma FinishKeepsInv<D>(w: World<D>, ok: bool)
    requires Inv(w) && Enabled(w, FinishStep(ok))
    ensures Inv(Apply(w, FinishStep(ok)))
  {
    var c' := Apply(w, FinishStep(ok)).core;
    SoonerOrLater(w.core.waiters, w.core.running.value.upTo);
    if c'.waiters != [] {
      assert c'.waiters[0] in c'.waiters;
    }
  }

  lemma StepKeepsInv<D>(w: World<D>, s: Step<D>)
    requires Inv(w) && Enabled(w, s)
    ensures Inv(Apply(w, s))
    ensures w.fileNo <= Apply(w, s).fileNo
  {
    match s
    case SaveStep(_) =>
    case AskStep(id) => AskKeepsInv(w, id);
    case LandStep =>
    case FinishStep(ok) => FinishKeepsInv(w, ok);
  }

  lemma {:induction false} RunKeepsInv<D>(w: World<D>, steps: seq<Step<D>>)
    requires Inv(w) && Legal(w, steps)
    ensures Inv(Run(w, steps))
    ensures w.fileNo <= Run(w, steps).fileNo
    decreases |steps|
  {
    if steps != [] {
      StepKeepsInv(w, steps[0]);
      RunKeepsInv(Apply(w, steps[0]), steps[1..]);
    }
  }

  /**
   What holds after any run of a process that opened the file: it holds one whole save, number
   `written` (or the one just renamed into place); a wait answered true asked for content no newer
   than the file's; and with no write under way every wait has been answered.
   */
  lemma FileSafety<D>(content: D, steps: seq<Step<D>>)
    requires Legal(Opened(content), steps)
    ensures var w := Run(Opened(content), steps);
            && |w.history| == w.core.saved + 1 && w.fileNo <= w.core.saved
            && w.file == w.history[w.fileNo]
            && (w.fileNo == w.core.written || HasLanded(w))
            && (forall id :: id in w.answers && w.answers[id] ==> id in w.asked && w.asked[id] <= w.fileNo)
            && (w.core.running.None? ==> w.core.waiters == [] && w.answers.Keys == w.asked.Keys)
  {
    RunKeepsInv(Opened(content), steps);
  }

  /** The file never goes back: whatever happens after a point of a run, it holds the same save or a later one. */
  lemma {:induction false} FileNeverGoesBack<D>(w: World<D>, before: seq<Step<D>>, after: seq<Step<D>>)
    requires Inv(w) && Legal(w, before) && Legal(Run(w, before), after)
    ensures Legal(w, before + after)
    ensures Run(w, before + after) == Run(Run(w, before), after)
    ensures Run(w, before).fileNo <= Run(w, before + after).fileNo
    decreases |before|
  {
    if before == [] {
      assert before + after == after;
      RunKeepsInv(w, after);
    } else {
      assert (before + after)[1..] == before[1..] + after;
      StepKeepsInv(w, before[0]);
      FileNeverGoesBack(Apply(w, before[0]), before[1..], after);
    }
  }
}

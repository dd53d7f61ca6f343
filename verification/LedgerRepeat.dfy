/**
 A run in which one command begins twice without a restart: the first command stays under way while
 501 later ones end, and the stream then offers the second one again.
 */
module LedgerRepeat {
  import opened Ledger

  const LATER: nat := KEPT + 1

  function Cmd(i: nat): (c: Command) {
    Command(i + 1, seq(i, _ => 'x'))
  }

  function Cmds(n: nat): (r: seq<Command>) {
    seq(n, i requires 0 <= i < n => Cmd(i))
  }

  ghost predicate Reaches(steps: seq<Step>, w: World) {
    Legal(First(), steps) && Run(First(), steps) == w && Crash !in steps
  }

  lemma {:induction false} OneMore(w: World, steps: seq<Step>, s: Step)
    requires Legal(w, steps) && Enabled(Run(w, steps), s)
    ensures Legal(w, steps + [s]) && Run(w, steps + [s]) == Apply(Run(w, steps), s)
    decreases |steps|
  {
    hide Apply, Enabled;
    if steps == [] {
      assert [s][1..] == [];
      assert Run(Apply(w, s), []) == Apply(w, s);
      assert [] + [s] == [s];
    } else {
      assert (steps + [s])[1..] == steps[1..] + [s];
      OneMore(Apply(w, steps[0]), steps[1..], s);
    }
  }

  /** The server has taken `n` commands, none offered yet. */
  lemma {:induction false} Taken(n: nat) returns (steps: seq<Step>, w: World)
    ensures Reaches(steps, w)
    ensures w.log == Cmds(n) && w.ended == {} && w.ends == [] && w.offered == 0 && w.begun == []
            && w.book.inflight == {}
  {
    if n == 0 {
      steps, w := [], First();
    } else {
      var before, v := Taken(n - 1);
      var c := Cmd(n - 1);
      assert forall d :: d in v.log ==> d.num < c.num && |d.id| < |c.id|;
      steps, w := before + [Issue(c)], Apply(v, Issue(c));
      OneMore(First(), before, Issue(c));
      assert Cmds(n) == Cmds(n - 1) + [c];
    }
  }

  /** The first `k` of `n` commands have begun. */
  ghost predicate Begun(w: World, n: nat, k: nat) {
    && w.log == Cmds(n) && w.ended == {} && w.ends == [] && w.offered == k <= n
    && (forall i :: 0 <= i < n ==> (Cmd(i).num in w.book.inflight <==> i < k))
    && (k > 1 ==> Start(Cmd(1), 0) in w.begun)
  }

  lemma {:induction false} AllBegin(n: nat, k: nat) returns (steps: seq<Step>, w: World)
    requires k <= n
    ensures Reaches(steps, w) && Begun(w, n, k)
  {
    hide Legal, Run, Last, Seen, Flight, Offers, Begins;
    if k == 0 {
      steps, w := Taken(n);
    } else {
      var before, v := AllBegin(n, k - 1);
      var c := v.log[k - 1];
      assert c == Cmd(k - 1);
      FirstInv();
      RunKeeps(First(), before);
      SeenExactly(v, c);
      assert GoodSave(v.log, v.ended, Current(v));
      steps, w := before + [Offer(k - 1)], Apply(v, Offer(k - 1));
      OneMore(First(), before, Offer(k - 1));
    }
  }

  /** All of `n` have begun, and those from the second to the one numbered `m` + 1 have ended. */
  ghost predicate Ended(w: World, n: nat, m: nat) {
    && m < n && w.log == Cmds(n) && w.offered == n
    && w.ends == Cmds(m + 1)[1..]
    && (forall i :: 0 <= i < n ==> (Cmd(i).num in w.book.inflight <==> i == 0 || i > m))
    && Start(Cmd(1), 0) in w.begun
  }

  lemma {:induction false} AllButFirstEnd(n: nat, m: nat) returns (steps: seq<Step>, w: World)
    requires m < n && n > 1
    ensures Reaches(steps, w) && Ended(w, n, m)
  {
    hide Legal, Run;
    if m == 0 {
      steps, w := AllBegin(n, n);
    } else {
      var before, v := AllButFirstEnd(n, m - 1);
      var c := v.log[m];
      assert c == Cmd(m) && c in v.log;
      steps, w := before + [Handled(c)], Apply(v, Handled(c));
      OneMore(First(), before, Handled(c));
      assert Cmds(m + 1)[1..] == Cmds(m)[1..] + [c];
    }
  }

  ghost predicate BeginsTwice(steps: seq<Step>) {
    && Legal(First(), steps) && Crash !in steps
    && var begun := Run(First(), steps).begun;
    exists i, j :: 0 <= i < j < |begun| && begun[i].c == begun[j].c
  }

  lemma RedeliveryCanRepeat()
    ensures exists steps :: BeginsTwice(steps)
  {
    hide Legal, Run, Seen, Last, Inv;
    var before, v := AllButFirstEnd(LATER + 1, LATER);
    var c := v.log[1];
    assert c == Cmd(1) && c in v.log;
    assert c !in Last(v.ends, KEPT) by {
      OldestForgotten();
    }
    FirstInv();
    RunKeeps(First(), before);
    SeenExactly(v, c);
    assert v.book.floor < Cmd(0).num by {
      CursorIsSafe(before);
    }
    var steps := before + [Offer(1)];
    OneMore(First(), before, Offer(1));
    var begun := Run(First(), steps).begun;
    assert begun == v.begun + [Start(c, |v.ends|)];
    var i :| 0 <= i < |v.begun| && v.begun[i] == Start(Cmd(1), 0);
    assert begun[i].c == begun[|v.begun|].c;
    assert BeginsTwice(steps);
  }

  lemma OldestForgotten()
    ensures Cmd(1) !in Last(Cmds(LATER + 1)[1..], KEPT)
  {
    var ends := Cmds(LATER + 1)[1..];
    assert |ends| == KEPT + 1;
    forall i | 0 <= i < KEPT ensures Last(ends, KEPT)[i].num != 2 {
      assert Last(ends, KEPT)[i] == ends[i + 1] == Cmd(i + 2);
    }
  }
}

/**
 The ordered shutdown of the control plane (`runUntilSignal`, sandbox/cmd/controlplane/shutdown.go): the router, any
 number of other components, their buffered channels and the goroutine that waits for them, interleaved in any way.
 */
module Drain {

  /** An error; None is Go's nil. */
  datatype Error = None | Failure(text: string)

  /** The goroutine of one component: in its run, about to report how that ended, past the report, done. */
  datatype Worker = Running | Reporting(err: Error) | Reported(err: Error) | Done(err: Error)

  datatype Main =
    | Watching                     // before the signal
    | Draining                     // the signal came; the router's result is awaited
    | Joining                      // it came; the router's goroutine is awaited
    | Stopping(i: nat)             // the others are awaited, in order
    | Returned(result: Error)

  /**
   `said` is what the router's run ended with, once it has; `entered` whether the drain began; `cancelled` whether
   the context shared by the others was cancelled.
   */
  datatype State = State(signalled: bool, cancelled: bool, router: Worker, routerRes: seq<Error>, others: seq<Worker>,
                         othersErr: seq<Error>, main: Main, routerErr: Error, said: Error, entered: bool)

  datatype Step =
    | Signal
    | RouterEnds(err: Error)       // its run returns; the server-closed error counts as nil
    | RouterSends
    | RouterDone
    | OtherEnds(i: nat, err: Error)
    | OtherSends(i: nat)
    | OtherDone(i: nat)
    | TakeRouter                   // the main goroutine receives the router's result
    | TakeOther                    // ... an error of another component
    | SeeSignal
    | Join
    | SeeDone
    | Deadline

  const STOPPED := Failure("stopped before the signal")

  /** Whether a send to a channel with that room goes through at once. */
  predicate Room(ch: seq<Error>, capacity: nat) {
    |ch| < capacity
  }

  predicate Enabled(s: State, step: Step) {
    match step
    case Signal => true
    case RouterEnds(_) => s.router.Running?
    case RouterSends => s.router.Reporting? && Room(s.routerRes, 1)
    case RouterDone => s.router.Reported?
    case OtherEnds(i, _) => i < |s.others| && s.others[i].Running?
    case OtherSends(i) =>
      i < |s.others| && s.others[i].Reporting? && (s.others[i].err == None || Room(s.othersErr, |s.others|))
    case OtherDone(i) => i < |s.others| && s.others[i].Reported?
    case TakeRouter => (s.main.Watching? || s.main.Draining?) && s.routerRes != []
    case TakeOther => (s.main.Watching? || s.main.Draining?) && s.othersErr != []
    case SeeSignal => s.main.Watching? && s.signalled
    case Join => s.main.Joining? && s.router.Done?
    case SeeDone => s.main.Stopping? && (s.main.i >= |s.others| || s.others[s.main.i].Done?)
    case Deadline => s.main.Stopping? && s.main.i < |s.others|
  }

  function Apply(s: State, step: Step): (r: State)
    requires Enabled(s, step)
  {
    match step
    case Signal => s.(signalled := true)
    case RouterEnds(err) => s.(router := Reporting(err), said := err)
    case RouterSends => s.(router := Reported(s.router.err), routerRes := s.routerRes + [s.router.err])
    case RouterDone => s.(router := Done(s.router.err))
    case OtherEnds(i, err) => s.(others := s.others[i := Reporting(err)])
    case OtherSends(i) =>
      var err := s.others[i].err;
      s.(others := s.others[i := Reported(err)], othersErr := if err == None then s.othersErr else s.othersErr + [err])
    case OtherDone(i) => s.(others := s.others[i := Done(s.others[i].err)])
    case TakeRouter =>
      var err := s.routerRes[0];
      var s' := s.(routerRes := s.routerRes[1..]);
      if s.main.Watching? then s'.(cancelled := true, main := Returned(if err == None then STOPPED else err))
      else s'.(routerErr := err, main := Joining)
    case TakeOther =>
      var err := s.othersErr[0];
      var s' := s.(othersErr := s.othersErr[1..]);
      if s.main.Watching? then s'.(cancelled := true, main := Returned(err)) else s'
    case SeeSignal => s.(main := Draining, entered := true)
    case Join => s.(cancelled := true, main := Stopping(0))
    case SeeDone =>
      if s.main.i >= |s.others| then s.(main := Returned(s.routerErr)) else s.(main := Stopping(s.main.i + 1))
    case Deadline => s.(main := Returned(s.routerErr))
  }

  function Started(n: nat): (s: State) {
    State(false, false, Running, [], seq(n, _ => Running), [], Watching, None, None, false)
  }

  ghost predicate Legal(s: State, steps: seq<Step>)
    decreases |steps|
  {
    steps == [] || (Enabled(s, steps[0]) && Legal(Apply(s, steps[0]), steps[1..]))
  }

  ghost function Run(s: State, steps: seq<Step>): (r: State)
    requires Legal(s, steps)
    decreases |steps|
  {
    if steps == [] then s else Run(Apply(s, steps[0]), steps[1..])
  }

  // ----- what every step keeps -----

  /** The router's result goes from its goroutine through the channel to the main goroutine, once. */
  predicate RouterInv(s: State) {
    && (s.router.Running? ==> s.routerRes == [])
    && (s.router.Reporting? ==> s.routerRes == [] && s.router.err == s.said)
    && (s.router.Running? || s.router.Reporting? ==>
        !s.main.Joining? && !s.main.Stopping? && !(s.entered && s.main.Returned?))
    && (s.router.Reported? || s.router.Done? ==>
          (s.main.Watching? || s.main.Draining?) ==> s.routerRes == [s.said])
    && (s.main.Joining? || s.main.Stopping? ==> s.entered && s.routerErr == s.said)
    && (s.main.Stopping? ==> s.router.Done?)
    && (s.main.Draining? ==> s.entered)
    && (s.main.Watching? ==> !s.entered)
    && (s.main.Returned? && s.entered ==> s.router.Done? && s.main.result == s.said)
    && (s.main.Returned? && !s.entered ==> s.main.result != None)
    && (s.entered && s.cancelled ==> s.router.Done? && (s.main.Stopping? || s.main.Returned?))
    && (s.main.Watching? || s.main.Draining? || s.main.Joining? ==> !s.cancelled)
  }

  /** The components that have sent what they had to send. */
  function Sent(others: seq<Worker>): (r: set<nat>) {
    set i | 0 <= i < |others| && (others[i].Reported? || others[i].Done?)
  }

  /** Some component has sent that error. */
  predicate SentError(others: seq<Worker>, err: Error) {
    exists i :: i in Sent(others) && others[i].err == err
  }

  predicate SomeFailed(others: seq<Worker>) {
    exists i :: i in Sent(others) && others[i].err != None
  }

  predicate OthersInv(s: State) {
    && |s.othersErr| <= |Sent(s.others)|
    && (forall k :: 0 <= k < |s.othersErr| ==> s.othersErr[k] != None && SentError(s.others, s.othersErr[k]))
    && (s.main.Watching? && SomeFailed(s.others) ==> s.othersErr != [])
  }

  predicate RouterSent(s: State) {
    s.router.Reported? || s.router.Done?
  }

  /** Before the signal only the router, however it ended, or an error of another component ends the wait. */
  predicate EarlyInv(s: State) {
    s.main.Returned? && !s.entered ==>
      || (RouterSent(s) && s.main.result == (if s.said == None then STOPPED else s.said))
      || (s.main.result != None && SentError(s.others, s.main.result))
  }

  lemma RouterStep(s: State, step: Step)
    requires RouterInv(s) && OthersInv(s) && Enabled(s, step)
    ensures RouterInv(Apply(s, step))
  {
  }

  /** Sending adds to what was sent; nothing else changes it. */
  lemma SentAfter(s: State, step: Step)
    requires Enabled(s, step)
    ensures var s' := Apply(s, step);
            && Sent(s'.others) == Sent(s.others) + (if step.OtherSends? then {step.i} else {})
            && (step.OtherSends? ==> step.i !in Sent(s.others))
            && (forall i :: i in Sent(s.others) ==> s'.others[i].err == s.others[i].err)
  {
    if step.OtherEnds? || step.OtherSends? || step.OtherDone? {
      var w := Apply(s, step).others[step.i];
      assert Apply(s, step).others == s.others[step.i := w];
    } else {
      assert Apply(s, step).others == s.others;
    }
  }

  lemma OthersStep(s: State, step: Step)
    requires OthersInv(s) && Enabled(s, step)
    ensures OthersInv(Apply(s, step))
  {
    hide Sent;
    SentAfter(s, step);
  }

  lemma EarlyStep(s: State, step: Step)
    requires RouterInv(s) && OthersInv(s) && EarlyInv(s) && Enabled(s, step)
    ensures EarlyInv(Apply(s, step))
  {
    hide Sent;
    SentAfter(s, step);
  }

  predicate Inv(s: State) {
    RouterInv(s) && OthersInv(s) && EarlyInv(s)
  }

  lemma {:induction false} RunKeeps(s: State, steps: seq<Step>)
    requires Inv(s) && Legal(s, steps)
    ensures Inv(Run(s, steps)) && |Run(s, steps).others| == |s.others|
    decreases |steps|
  {
    hide RouterInv, OthersInv, EarlyInv;
    if steps != [] {
      RouterStep(s, steps[0]);
      OthersStep(s, steps[0]);
      EarlyStep(s, steps[0]);
      RunKeeps(Apply(s, steps[0]), steps[1..]);
    }
  }

  lemma {:induction false} Below(n: nat, s: set<nat>)
    requires forall i :: i in s ==> i < n
    ensures |s| <= n
  {
    if n > 0 {
      Below(n - 1, s - {n - 1});
      assert s <= (s - {n - 1}) + {n - 1};
      if n - 1 in s {
        assert s == (s - {n - 1}) + {n - 1};
      } else {
        assert s == s - {n - 1};
      }
    } else {
      assert s == {};
    }
  }

  lemma StartedInv(n: nat)
    ensures Inv(Started(n))
  {
    assert Sent(Started(n).others) == {};
  }

  /**
   In every interleaving, for any number of components: once the drain has begun, the shared context is cancelled
   only after the router's run has returned, and the result is exactly what the router's run ended with, whatever
   the others reported; before it has begun, a return is always an error: the router's, or its having stopped, or one
   that another component sent.
   */
  lemma RouterDrainsFirst(n: nat, steps: seq<Step>)
    requires Legal(Started(n), steps)
    ensures var s := Run(Started(n), steps);
            && (s.entered && s.cancelled ==> s.router.Done?)
            && (s.entered && s.main.Returned? ==> s.main.result == s.said)
            && (!s.entered && s.main.Returned? ==> s.main.result != None && EarlyInv(s))
  {
    StartedInv(n);
    RunKeeps(Started(n), steps);
  }

  /** No goroutine that reports can block: whatever has been received or not, its channel has room. */
  lemma NoReporterBlocks(n: nat, steps: seq<Step>)
    requires Legal(Started(n), steps)
    ensures var s := Run(Started(n), steps);
            && |s.others| == n
            && (s.router.Reporting? ==> Enabled(s, RouterSends))
            && (forall i :: 0 <= i < n && s.others[i].Reporting? ==> Enabled(s, OtherSends(i)))
  {
    StartedInv(n);
    RunKeeps(Started(n), steps);
    var s := Run(Started(n), steps);
    forall i | 0 <= i < n && s.others[i].Reporting? ensures Room(s.othersErr, n) {
      RoomForOneMore(s, i);
    }
  }

  lemma RoomForOneMore(s: State, i: nat)
    requires OthersInv(s) && i < |s.others| && s.others[i].Reporting?
    ensures Room(s.othersErr, |s.others|)
  {
    var n := |s.others|;
    Below(n, Sent(s.others) + {i});
    assert i !in Sent(s.others);
  }

  /**
   Once the router's run has returned, the drain goes on by itself: its result is in the channel until it is received.
   */
  lemma DrainGoesOn(n: nat, steps: seq<Step>)
    requires Legal(Started(n), steps)
    ensures var s := Run(Started(n), steps);
            && (s.main.Draining? && (s.router.Reported? || s.router.Done?) ==>
                Enabled(s, TakeRouter) && s.routerRes == [s.said])
            && (s.main.Joining? ==> s.router.Done? || Enabled(s, RouterDone))
            && (s.main.Stopping? ==> Enabled(s, SeeDone) || Enabled(s, Deadline))
  {
    StartedInv(n);
    RunKeeps(Started(n), steps);
  }

  /**
   Before the signal the wait can end exactly when the router has sent its result or another component has sent an
   error.  A component that ends without an error is never noticed.
   */
  lemma EndsEarlyExactlyOnError(n: nat, steps: seq<Step>)
    requires Legal(Started(n), steps) && Run(Started(n), steps).main.Watching?
    ensures var s := Run(Started(n), steps);
            Enabled(s, TakeRouter) || Enabled(s, TakeOther) <==> RouterSent(s) || SomeFailed(s.others)
  {
    hide Sent;
    StartedInv(n);
    RunKeeps(Started(n), steps);
    var s := Run(Started(n), steps);
    if s.othersErr != [] {
      assert s.othersErr[0] != None && SentError(s.others, s.othersErr[0]);
    }
  }

  /** One component, as its goroutine goes. */
  function Only(other: Worker): (s: State) {
    Started(1).(others := [other])
  }

  lemma QuietSteps()
    ensures Started(1) == Only(Running)
    ensures Enabled(Only(Running), OtherEnds(0, None))
    ensures Apply(Only(Running), OtherEnds(0, None)) == Only(Reporting(None))
    ensures Enabled(Only(Reporting(None)), OtherSends(0))
    ensures Apply(Only(Reporting(None)), OtherSends(0)) == Only(Reported(None))
    ensures Enabled(Only(Reported(None)), OtherDone(0))
    ensures Apply(Only(Reported(None)), OtherDone(0)) == Only(Done(None))
  {
    assert [Running][0 := Reporting(None)] == [Reporting(None)];
  }

  lemma First(s: State, steps: seq<Step>)
    requires steps != [] && Enabled(s, steps[0]) && Legal(Apply(s, steps[0]), steps[1..])
    ensures Legal(s, steps) && Run(s, steps) == Run(Apply(s, steps[0]), steps[1..])
  {
  }

  const QUIETLY := [OtherEnds(0, None), OtherSends(0), OtherDone(0)]

  /** So the only other component may be gone before the signal while the main goroutine waits on. */
  lemma QuietEndIsNotFatal()
    ensures Legal(Started(1), QUIETLY) && Run(Started(1), QUIETLY) == Only(Done(None))
    ensures var s := Only(Done(None));
            && s.main.Watching? && !Enabled(s, TakeRouter) && !Enabled(s, TakeOther) && !Enabled(s, SeeSignal)
  {
    QuietRun();
  }

  lemma QuietRun()
    ensures Legal(Started(1), QUIETLY) && Run(Started(1), QUIETLY) == Only(Done(None))
  {
    hide Legal, Run, Apply, Enabled, Only, Started;
    QuietSteps();
    NoSteps(Only(Done(None)));
    assert QUIETLY[1..] == [OtherSends(0), OtherDone(0)];
    assert QUIETLY[1..][1..] == [OtherDone(0)];
    assert [OtherDone(0)][1..] == [];
    First(Only(Reported(None)), [OtherDone(0)]);
    First(Only(Reporting(None)), QUIETLY[1..]);
    First(Only(Running), QUIETLY);
  }

  lemma NoSteps(s: State)
    ensures Legal(s, []) && Run(s, []) == s
  {
  }
}

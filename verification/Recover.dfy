/** What a new run does with the turns the one before left (`SessionManager.recover`, connector/src/manager.ts). */
module Recover {
  import opened Wrappers
  import S = Snapshot
  import opened Turns

  datatype Agent = Agent(allowUnsafe: bool, asking: set<string>)

  /** `used` is when it was last used, None when that is unknown or no time. */
  datatype Session = Session(agent: string, active: bool, mode: Option<string>, used: Option<int>)

  /** What `recover` reads: the sessions and agents, how long the machine was away, whether turns may go on. */
  datatype Setting = Setting(sessions: map<Sid, Session>, agents: map<string, Agent>, downFor: Option<nat>,
                             mayContinue: bool, ttl: nat, now: int)

  const RECOVER_NOTICE_MS := 4 * 3600_000

  predicate IsActive(o: Setting, sid: Sid) {
    sid in o.sessions && o.sessions[sid].active
  }

  /** The session's agent always asks, and was last seen in a mode that does. */
  predicate Asks(o: Setting, sid: Sid) {
    && sid in o.sessions && o.sessions[sid].agent in o.agents
    && var agent := o.agents[o.sessions[sid].agent];
    !agent.allowUnsafe && o.sessions[sid].mode.Some? && o.sessions[sid].mode.value in agent.asking
  }

  predicate GoesOn(o: Setting, sid: Sid, t: Rec) {
    && o.mayContinue
    && IsActive(o, sid)
    && Asks(o, sid)
    && t.permission
    && o.downFor.Some? && o.downFor.value <= o.ttl
  }

  datatype Event =
    | Continued(sid: Sid, prompt: Prompt)      // session_recovered, continuing
    | Interrupted(sid: Sid, prompt: Prompt)    // session_recovered, not continuing
    | Ended(sid: Sid, prompt: Prompt)          // turn_end
    | Back(sid: Sid)                           // session_recovered, nothing was running

  function Told(o: Setting, sid: Sid, t: Rec): (r: seq<Event>) {
    if GoesOn(o, sid, t) then [Continued(sid, t.prompt)]
    else (if IsActive(o, sid) then [Interrupted(sid, t.prompt)] else []) + [Ended(sid, t.prompt)]
  }

  datatype Outcome = Outcome(events: seq<Event>, going: seq<Prompt>, left: Records)

  function One(o: Setting, r: Outcome, sid: Sid, t: Rec): (r': Outcome) {
    if GoesOn(o, sid, t) then Outcome(r.events + Told(o, sid, t), r.going + [t.prompt], r.left)
    else Outcome(r.events + Told(o, sid, t), r.going, r.left - {sid})
  }

  function Recovered(o: Setting, order: seq<Sid>, turns: Records): (r: Outcome)
    requires forall sid :: sid in order ==> sid in turns
  {
    if order == [] then Outcome([], [], turns)
    else
      var sid := order[|order| - 1];
      One(o, Recovered(o, order[..|order| - 1], turns), sid, turns[sid])
  }

  /** The loop over the recorded turns, in the order the store lists them; `going` are the prompts sent on. */
  method Run(store: SessionStore, o: Setting, order: seq<Sid>) returns (events: seq<Event>, going: seq<Prompt>)
    requires forall sid :: sid in order ==> sid in store.turns
    modifies store, store.turnsOut
    ensures forall sid :: sid in order ==> sid in old(store.turns)
    ensures Outcome(events, going, store.turns) == Recovered(o, order, old(store.turns))
  {
    hide GoesOn, Asks;
    var found := store.turns;
    events, going := [], [];
    var i := 0;
    while i < |order|
      invariant 0 <= i <= |order|
      invariant Outcome(events, going, store.turns) == Recovered(o, order[..i], found)
    {
      var sid := order[i];
      var t := found[sid];
      assert order[..i + 1][..i] == order[..i];
      if GoesOn(o, sid, t) {
        events := events + [Continued(sid, t.prompt)];
        going := going + [t.prompt];
      } else {
        var was := events;
        if IsActive(o, sid) {
          events := events + [Interrupted(sid, t.prompt)];
        }
        events := events + [Ended(sid, t.prompt)];
        assert events == was + Told(o, sid, t);
        store.EndTurn(sid);
      }
      i := i + 1;
    }
    assert order[..|order|] == order;
  }

  lemma ToldWhat(o: Setting, sid: Sid, t: Rec, e: Event)
    requires e.Ended? || e.Continued?
    ensures e in Told(o, sid, t) <==>
            e == (if GoesOn(o, sid, t) then Continued(sid, t.prompt) else Ended(sid, t.prompt))
  {
    hide GoesOn;
  }

  /** What one more turn changes for any session. */
  lemma OneMore(o: Setting, r: Outcome, last: Sid, t: Rec, sid: Sid, p: Prompt)
    requires sid == last ==> t.prompt == p
    ensures var r' := One(o, r, last, t);
            && (Ended(sid, p) in r'.events <==> Ended(sid, p) in r.events || (sid == last && !GoesOn(o, last, t)))
            && (Continued(sid, p) in r'.events <==>
                Continued(sid, p) in r.events || (sid == last && GoesOn(o, last, t)))
            && (sid in r'.left <==> sid in r.left && (sid != last || GoesOn(o, last, t)))
            && (sid in r'.left ==> r'.left[sid] == r.left[sid])
            && (p in r.going || (sid == last && GoesOn(o, last, t)) ==> p in r'.going)
  {
    hide GoesOn, Told;
    ToldWhat(o, last, t, Ended(sid, p));
    ToldWhat(o, last, t, Continued(sid, p));
  }

  /**
   Every turn left running is ended or carried on, never both and never neither: its record stays exactly when
   its prompt is sent on and the phone told so, and goes exactly when the phone is told that it ended.
   */
  lemma {:induction false} EndsOrGoesOn(o: Setting, order: seq<Sid>, turns: Records, sid: Sid)
    requires (forall s :: s in order ==> s in turns) && sid in turns
    ensures var r := Recovered(o, order, turns);
            && (Ended(sid, turns[sid].prompt) in r.events <==> sid !in r.left)
            && (sid !in r.left <==> sid in order && !GoesOn(o, sid, turns[sid]))
            && (Continued(sid, turns[sid].prompt) in r.events <==> sid in order && GoesOn(o, sid, turns[sid]))
            && (sid in order && GoesOn(o, sid, turns[sid]) ==> turns[sid].prompt in r.going)
            && (sid in r.left ==> r.left[sid] == turns[sid])
  {
    hide GoesOn, One;
    if order != [] {
      var n := |order| - 1;
      EndsOrGoesOn(o, order[..n], turns, sid);
      OneMore(o, Recovered(o, order[..n], turns), order[n], turns[order[n]], sid, turns[sid].prompt);
      assert sid in order <==> sid in order[..n] || sid == order[n];
    }
  }

  // ----- the sessions without a turn -----

  predicate UsedLately(o: Setting, sid: Sid) {
    IsActive(o, sid) && o.sessions[sid].used.Some? && o.now - o.sessions[sid].used.value <= RECOVER_NOTICE_MS
  }

  function Notices(o: Setting, ids: seq<Sid>, told: set<Sid>): (r: seq<Event>) {
    if ids == [] then []
    else
      var sid := ids[|ids| - 1];
      Notices(o, ids[..|ids| - 1], told) + if sid !in told && UsedLately(o, sid) then [Back(sid)] else []
  }

  /** `recover` as a whole: both loops, the second over every session the store knows. */
  method Recover(store: SessionStore, o: Setting, order: seq<Sid>, ids: seq<Sid>)
    returns (events: seq<Event>, going: seq<Prompt>)
    requires forall sid :: sid in order ==> sid in store.turns
    modifies store, store.turnsOut
    ensures forall sid :: sid in order ==> sid in old(store.turns)
    ensures var r := Recovered(o, order, old(store.turns));
            going == r.going && store.turns == r.left && events == r.events + Notices(o, ids, set sid | sid in order)
  {
    hide GoesOn, Recovered;
    events, going := Run(store, o, order);
    var told := set sid | sid in order;
    ghost var first := events;
    for i := 0 to |ids|
      invariant events == first + Notices(o, ids[..i], told)
    {
      var sid := ids[i];
      assert ids[..i + 1][..i] == ids[..i];
      if sid in told || sid !in o.sessions || !o.sessions[sid].active || o.sessions[sid].used.None? {
        continue;
      }
      if o.now - o.sessions[sid].used.value > RECOVER_NOTICE_MS {
        continue;
      }
      events := events + [Back(sid)];
    }
    assert ids[..|ids|] == ids;
  }

  // ----- every session is told once -----

  predicate Notice(e: Event, sid: Sid) {
    e.sid == sid && !e.Ended?
  }

  /** How often the session is told that the connector is back. */
  function Count(events: seq<Event>, sid: Sid): (n: nat) {
    if events == [] then 0
    else Count(events[..|events| - 1], sid) + if Notice(events[|events| - 1], sid) then 1 else 0
  }

  lemma {:induction false} CountAdds(a: seq<Event>, b: seq<Event>, sid: Sid)
    ensures Count(a + b, sid) == Count(a, sid) + Count(b, sid)
  {
    if b == [] {
      assert a + b == a;
    } else {
      assert (a + b)[..|a + b| - 1] == a + b[..|b| - 1];
      CountAdds(a, b[..|b| - 1], sid);
    }
  }

  lemma CountOne(e: Event, sid: Sid)
    ensures Count([e], sid) == if Notice(e, sid) then 1 else 0
  {
    assert [e][..0] == [];
  }

  lemma GoesOnActive(o: Setting, sid: Sid, t: Rec)
    ensures GoesOn(o, sid, t) ==> IsActive(o, sid)
  {
  }

  lemma CountTold(o: Setting, last: Sid, t: Rec, sid: Sid)
    ensures Count(Told(o, last, t), sid) == if sid == last && IsActive(o, sid) then 1 else 0
  {
    hide GoesOn;
    GoesOnActive(o, last, t);
    CountOne(Continued(last, t.prompt), sid);
    CountOne(Interrupted(last, t.prompt), sid);
    CountOne(Ended(last, t.prompt), sid);
    CountAdds([Interrupted(last, t.prompt)], [Ended(last, t.prompt)], sid);
    assert [] + [Ended(last, t.prompt)] == [Ended(last, t.prompt)];
  }

  /** A list without repeats. */
  predicate Distinct(s: seq<Sid>) {
    forall i, j :: 0 <= i < j < |s| ==> s[i] != s[j]
  }

  lemma LastOff(s: seq<Sid>, sid: Sid)
    requires Distinct(s) && s != []
    ensures var n := |s| - 1;
            Distinct(s[..n]) && (sid in s <==> sid in s[..n] || sid == s[n]) && s[n] !in s[..n]
  {
  }

  lemma {:induction false} CountRecovered(o: Setting, order: seq<Sid>, turns: Records, sid: Sid)
    requires Distinct(order) && forall s :: s in order ==> s in turns
    ensures Count(Recovered(o, order, turns).events, sid) == if sid in order && IsActive(o, sid) then 1 else 0
  {
    hide GoesOn, Told, Count, IsActive;
    if order != [] {
      var n := |order| - 1;
      LastOff(order, sid);
      CountRecovered(o, order[..n], turns, sid);
      CountAdds(Recovered(o, order[..n], turns).events, Told(o, order[n], turns[order[n]]), sid);
      CountTold(o, order[n], turns[order[n]], sid);
    } else {
      CountNone(sid);
    }
  }

  lemma CountNone(sid: Sid)
    ensures Count([], sid) == 0
  {
  }

  lemma {:induction false} CountNotices(o: Setting, ids: seq<Sid>, told: set<Sid>, sid: Sid)
    requires Distinct(ids)
    ensures Count(Notices(o, ids, told), sid) == if sid in ids && sid !in told && UsedLately(o, sid) then 1 else 0
  {
    hide UsedLately, Count;
    CountNone(sid);
    if ids != [] {
      var n := |ids| - 1;
      LastOff(ids, sid);
      CountNotices(o, ids[..n], told, sid);
      if ids[n] !in told && UsedLately(o, ids[n]) {
        CountAdds(Notices(o, ids[..n], told), [Back(ids[n])], sid);
        CountOne(Back(ids[n]), sid);
      } else {
        assert Notices(o, ids, told) == Notices(o, ids[..n], told);
      }
    }
  }

  /**
   Every session is told at most once that the connector is back, and exactly once if it is active and had a turn
   running or was used lately.
   */
  lemma ToldOnce(o: Setting, order: seq<Sid>, ids: seq<Sid>, turns: Records, sid: Sid)
    requires Distinct(order) && Distinct(ids) && forall s :: s in order ==> s in turns
    ensures var all := Recovered(o, order, turns).events + Notices(o, ids, set s | s in order);
            Count(all, sid) ==
            if (sid in order && IsActive(o, sid)) || (sid !in order && sid in ids && UsedLately(o, sid)) then 1 else 0
  {
    hide UsedLately, Count, Recovered, Notices;
    CountRecovered(o, order, turns, sid);
    CountNotices(o, ids, (set s | s in order), sid);
    CountAdds(Recovered(o, order, turns).events, Notices(o, ids, set s | s in order), sid);
  }
}

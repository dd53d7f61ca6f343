/**
 The warm-pool reconciler (sandbox/extensions/controllers/sandboxwarmpool_controller.go): one pass over the pods of
 a pool that adopts, replaces, creates and deletes until the pool has the replicas it should have.
 */
module WarmPool {
  import opened Wrappers

  const POOL_LABEL := "agents.x-k8s.io/pool"
  const TEMPLATE_LABEL := "agents.x-k8s.io/sandbox-template-ref-hash"

  datatype State = Running | Terminated(exitCode: int) | Waiting(reason: string)

  /** A pod as the API server holds it; `owner` is the UID of its controller. */
  datatype Pod = Pod(labels: map<string, string>, owner: Option<string>, deleting: bool, created: int,
                     phaseFailed: bool, init: seq<State>, main: seq<State>)

  type Name = nat
  type Pods = map<Name, Pod>

  datatype Pool = Pool(uid: string, hash: string, replicas: nat, templateHash: string,
                       templateLabels: map<string, string>)

  // ----- which pods count -----

  const PULL_FAILURES := {"ErrImagePull", "ImagePullBackOff", "InvalidImageName"}

  predicate StuckInit(s: State) {
    match s
    case Running => false
    case Terminated(code) => code != 0
    case Waiting(reason) => reason in PULL_FAILURES
  }

  predicate StuckMain(s: State) {
    match s
    case Running => false
    case Terminated(code) => code != 0
    case Waiting(reason) =>
      reason in PULL_FAILURES || reason == "CrashLoopBackOff" || reason == "CreateContainerConfigError"
  }

  /** The pod will never recover on its own. */
  predicate Failed(p: Pod) {
    || p.phaseFailed
    || (exists i :: 0 <= i < |p.init| && StuckInit(p.init[i]))
    || (exists i :: 0 <= i < |p.main| && StuckMain(p.main[i]))
  }

  method IsPodTerminallyFailed(p: Pod) returns (r: bool)
    ensures r == Failed(p)
  {
    if p.phaseFailed {
      return true;
    }
    for i := 0 to |p.init|
      invariant forall j :: 0 <= j < i ==> !StuckInit(p.init[j])
    {
      if StuckInit(p.init[i]) {
        return true;
      }
    }
    for i := 0 to |p.main|
      invariant forall j :: 0 <= j < i ==> !StuckMain(p.main[j])
    {
      if StuckMain(p.main[i]) {
        return true;
      }
    }
    return false;
  }

  predicate Labelled(pool: Pool, p: Pod) {
    POOL_LABEL in p.labels && p.labels[POOL_LABEL] == pool.hash
  }

  /** A live pod of the pool that no other controller owns. */
  predicate Ours(pool: Pool, p: Pod) {
    Labelled(pool, p) && !p.deleting && (p.owner == None || p.owner == Some(pool.uid))
  }

  /** The pods that count: ours and not failed. */
  function Active(pool: Pool, pods: Pods): (s: set<Name>) {
    set n | n in pods && Ours(pool, pods[n]) && !Failed(pods[n])
  }

  /** The live, owned, healthy pods of the pool. */
  function Live(pool: Pool, pods: Pods): (s: set<Name>) {
    set n | n in pods && Ours(pool, pods[n]) && pods[n].owner == Some(pool.uid) && !Failed(pods[n])
  }

  /** A reconcile finds nothing to do. */
  predicate Settled(pool: Pool, pods: Pods) {
    && (forall n :: n in pods && Ours(pool, pods[n]) ==> pods[n].owner == Some(pool.uid) && !Failed(pods[n]))
    && |Active(pool, pods)| == pool.replicas
  }

  // ----- the steps of a reconcile, on the whole cluster -----

  function Adopt(pool: Pool, pods: Pods, names: set<Name>): (r: Pods) {
    map n | n in pods :: if n in names && Ours(pool, pods[n]) then pods[n].(owner := Some(pool.uid)) else pods[n]
  }

  function Delete(pods: Pods, names: set<Name>): (r: Pods) {
    map n | n in pods :: if n in names then pods[n].(deleting := true) else pods[n]
  }

  /** The labels of a new pod: the template's win over the pool's own. */
  function NewLabels(pool: Pool): (r: map<string, string>) {
    map[POOL_LABEL := pool.hash, TEMPLATE_LABEL := pool.templateHash] + pool.templateLabels
  }

  function NewPod(pool: Pool, now: int): (p: Pod) {
    Pod(NewLabels(pool), Some(pool.uid), false, now, false, [], [])
  }

  function NewPods(pool: Pool, names: set<Name>, now: int): (r: Pods) {
    map n | n in names :: NewPod(pool, now)
  }

  /** The template does not take the pool label away from new pods. */
  predicate KeepsLabel(pool: Pool) {
    POOL_LABEL in pool.templateLabels ==> pool.templateLabels[POOL_LABEL] == pool.hash
  }

  predicate Distinct(s: seq<Name>) {
    forall i, j :: 0 <= i < j < |s| ==> s[i] != s[j]
  }

  function Names(s: seq<Name>): (r: set<Name>) {
    set n | n in s
  }

  lemma {:induction false} DistinctSize(s: seq<Name>)
    requires Distinct(s)
    ensures |Names(s)| == |s|
  {
    if s != [] {
      var n := |s| - 1;
      DistinctSize(s[..n]);
      assert Names(s) == Names(s[..n]) + {s[n]};
      assert s[n] !in s[..n];
    }
  }

  /** Newest first. */
  predicate NewestFirst(pods: Pods, s: seq<Name>)
    requires forall n :: n in s ==> n in pods
  {
    forall i, j :: 0 <= i < j < |s| ==> pods[s[i]].created >= pods[s[j]].created
  }

  /** `sort.Slice` by creation, newest first; pods of one moment in any order. */
  method SortNewestFirst(pods: Pods, s: seq<Name>) returns (r: seq<Name>)
    requires Distinct(s) && forall n :: n in s ==> n in pods
    ensures Distinct(r) && Names(r) == Names(s) && |r| == |s|
    ensures (forall n :: n in r ==> n in pods) && NewestFirst(pods, r)
  {
    r := [];
    for i := 0 to |s|
      invariant Distinct(r) && |r| == i && Names(r) == Names(s[..i])
      invariant (forall n :: n in r ==> n in pods) && NewestFirst(pods, r)
    {
      assert s[..i + 1] == s[..i] + [s[i]];
      assert s[i] !in Names(s[..i]);
      r := Insert(pods, r, s[i]);
    }
    assert s[..|s|] == s;
  }

  method Insert(pods: Pods, s: seq<Name>, n: Name) returns (r: seq<Name>)
    requires Distinct(s) && n !in s && n in pods && (forall m :: m in s ==> m in pods) && NewestFirst(pods, s)
    ensures Distinct(r) && |r| == |s| + 1 && Names(r) == Names(s) + {n}
    ensures (forall m :: m in r ==> m in pods) && NewestFirst(pods, r)
  {
    var k := 0;
    while k < |s| && pods[s[k]].created >= pods[n].created
      invariant 0 <= k <= |s|
      invariant forall j :: 0 <= j < k ==> pods[s[j]].created >= pods[n].created
    {
      k := k + 1;
    }
    r := s[..k] + [n] + s[k..];
    Inserted(s, n, k);
    InsertedSorted(pods, s, n, k);
  }

  lemma Inserted(s: seq<Name>, n: Name, k: nat)
    requires Distinct(s) && n !in s && k <= |s|
    ensures var r := s[..k] + [n] + s[k..];
            Distinct(r) && Names(r) == Names(s) + {n} && forall m :: m in r <==> m in s || m == n
  {
    var r := s[..k] + [n] + s[k..];
    assert s == s[..k] + s[k..];
    forall i, j | 0 <= i < j < |r| ensures r[i] != r[j] {
      assert r[i] == if i < k then s[i] else if i == k then n else s[i - 1];
      assert r[j] == if j < k then s[j] else if j == k then n else s[j - 1];
    }
  }

  lemma InsertedSorted(pods: Pods, s: seq<Name>, n: Name, k: nat)
    requires k <= |s| && n in pods && (forall m :: m in s ==> m in pods) && NewestFirst(pods, s)
    requires forall j :: 0 <= j < k ==> pods[s[j]].created >= pods[n].created
    requires k < |s| ==> pods[s[k]].created < pods[n].created
    ensures var r := s[..k] + [n] + s[k..];
            (forall m :: m in r ==> m in pods) && NewestFirst(pods, r)
  {
    var r := s[..k] + [n] + s[k..];
    assert forall m :: m in r ==> m in s || m == n;
    forall i, j | 0 <= i < j < |r| ensures pods[r[i]].created >= pods[r[j]].created {
      assert r[i] == if i < k then s[i] else if i == k then n else s[i - 1];
      assert r[j] == if j < k then s[j] else if j == k then n else s[j - 1];
    }
  }

  // ----- one reconcile -----

  function FailedOurs(pool: Pool, pods: Pods): (s: set<Name>) {
    set n | n in pods && Ours(pool, pods[n]) && Failed(pods[n])
  }

  function Least(n: int): (r: int) {
    if n < 0 then 0 else n
  }

  /** Which pods a reconcile may delete as excess and add: as many as it takes, the newest, under fresh names. */
  predicate Chosen(pool: Pool, pods: Pods, excess: set<Name>, added: set<Name>) {
    var active := Active(pool, pods);
    && excess <= active && |excess| == Least(|active| - pool.replicas)
    && (forall d, k :: d in excess && k in active - excess ==> pods[k].created <= pods[d].created)
    && added !! pods.Keys && |added| == Least(pool.replicas - |active|)
  }

  function Reconciled(pool: Pool, pods: Pods, excess: set<Name>, added: set<Name>, now: int): (r: Pods) {
    Delete(Delete(Adopt(pool, pods, pods.Keys), FailedOurs(pool, pods)), excess) + NewPods(pool, added, now)
  }

  /** The API server and the controller's calls to it, none of which fails here. */
  class Cluster {
    var pods: Pods
    var next: Name

    predicate Valid()
      reads this
    {
      forall n :: n in pods ==> n < next
    }

    method SetOwner(n: Name, uid: string)
      requires n in pods
      modifies this`pods
      ensures pods == old(pods)[n := old(pods)[n].(owner := Some(uid))]
    {
      pods := pods[n := pods[n].(owner := Some(uid))];
    }

    method DeletePod(n: Name)
      requires n in pods
      modifies this`pods
      ensures pods == Delete(old(pods), {n})
    {
      pods := pods[n := pods[n].(deleting := true)];
    }

    method CreatePod(p: Pod) returns (n: Name)
      requires Valid()
      modifies this
      ensures Valid() && n == old(next) && n !in old(pods) && pods == old(pods)[n := p]
    {
      n := next;
      pods := pods[n := p];
      next := next + 1;
    }

    /** The first loop: adopts the pool's orphans and sorts its pods into active and failed ones. */
    method Triage(pool: Pool, listed: seq<Name>) returns (active: seq<Name>, failed: seq<Name>)
      requires Distinct(listed) && forall n :: n in listed <==> n in pods && Labelled(pool, pods[n])
      modifies this`pods
      ensures pods == Adopt(pool, old(pods), old(pods).Keys) && pods.Keys == old(pods).Keys
      ensures Distinct(active) && Names(active) == Active(pool, old(pods))
      ensures Distinct(failed) && Names(failed) == FailedOurs(pool, old(pods))
    {
      hide Failed, Adopt;
      active, failed := [], [];
      var before := pods;
      AdoptNone(pool, before);
      assert Names(listed[..0]) == {};
      for i := 0 to |listed|
        invariant pods == Adopt(pool, before, Names(listed[..i]))
        invariant Distinct(active) && Distinct(failed)
        invariant forall n :: n in active <==> n in listed[..i] && Ours(pool, before[n]) && !Failed(before[n])
        invariant forall n :: n in failed <==> n in listed[..i] && Ours(pool, before[n]) && Failed(before[n])
      {
        var n := listed[i];
        assert listed[..i + 1] == listed[..i] + [n] && n !in listed[..i];
        AdoptOne(pool, before, Names(listed[..i]), n);
        assert Names(listed[..i + 1]) == Names(listed[..i]) + {n};
        var pod := pods[n];
        if pod.deleting {
          continue;
        }
        if pod.owner == None {
          SetOwner(n, pool.uid);
        } else if pod.owner != Some(pool.uid) {
          continue;
        }
        var isFailed := IsPodTerminallyFailed(pod);
        if isFailed {
          failed := failed + [n];
          continue;
        }
        active := active + [n];
      }
      assert listed[..|listed|] == listed;
      AdoptAll(pool, before, Names(listed));
      AdoptKeeps(pool, before);
    }

    /** Deletes the pods named, one after the other. */
    method DeleteEach(names: seq<Name>)
      requires forall n :: n in names ==> n in pods
      modifies this`pods
      ensures pods == Delete(old(pods), Names(names)) && pods.Keys == old(pods).Keys
    {
      hide Delete;
      var before := pods;
      DeleteNone(before);
      assert Names(names[..0]) == {};
      for i := 0 to |names|
        invariant pods == Delete(before, Names(names[..i]))
      {
        assert names[..i + 1] == names[..i] + [names[i]];
        assert Names(names[..i + 1]) == Names(names[..i]) + {names[i]};
        DeleteMore(before, Names(names[..i]), {names[i]});
        DeletePod(names[i]);
      }
      assert names[..|names|] == names;
      DeleteKeeps(before, Names(names));
    }

    /** Creates that many pods. */
    method CreateEach(pool: Pool, count: nat, now: int) returns (added: seq<Name>)
      requires Valid()
      modifies this
      ensures Valid() && Distinct(added) && |added| == count && Names(added) !! old(pods).Keys
      ensures pods == old(pods) + NewPods(pool, Names(added), now)
    {
      hide NewPods, NewPod;
      added := [];
      var before := pods;
      NoNames();
      NothingAdded(pool, before, now);
      for i := 0 to count
        invariant Valid() && Distinct(added) && |added| == i && Names(added) !! before.Keys
        invariant pods == before + NewPods(pool, Names(added), now)
      {
        OneAdded(pool, before, Names(added), next, now);
        var n := CreatePod(NewPod(pool, now));
        assert Names(added + [n]) == Names(added) + {n};
        added := added + [n];
      }
    }

    /** The pods with the pool's label, in any order. */
    method List(pool: Pool) returns (listed: seq<Name>)
      ensures Distinct(listed) && forall n :: n in listed <==> n in pods && Labelled(pool, pods[n])
    {
      listed := [];
      var left := pods.Keys;
      while left != {}
        invariant left <= pods.Keys && Distinct(listed)
        invariant forall n :: n in listed <==> n in pods.Keys - left && Labelled(pool, pods[n])
        decreases left
      {
        var n :| n in left;
        left := left - {n};
        if Labelled(pool, pods[n]) {
          listed := listed + [n];
        }
      }
    }

    /** `reconcilePool`: the pods deleted as excess and the pods created. */
    method ReconcilePool(pool: Pool, now: int) returns (excess: seq<Name>, added: seq<Name>)
      requires Valid()
      modifies this
      ensures Valid()
      ensures Chosen(pool, old(pods), Names(excess), Names(added))
      ensures pods == Reconciled(pool, old(pods), Names(excess), Names(added), now)
    {
      hide Failed, Active, FailedOurs, Adopt, Delete, Labelled, NewPods;
      var before := pods;
      var listed := List(pool);
      var active, failed := Triage(pool, listed);
      AdoptKeeps(pool, before);
      DistinctSize(active);
      SomeOurs(pool, before);
      DeleteEach(failed);
      excess, added := [], [];
      NoNames();
      var kept := pods;
      DeleteNone(kept);
      if |active| < pool.replicas {
        added := CreateEach(pool, pool.replicas - |active|, now);
        DistinctSize(added);
      }
      if |active| > pool.replicas {
        var sorted := SortNewestFirst(before, active);
        excess := sorted[..|active| - pool.replicas];
        DistinctSize(excess);
        FirstAreNewest(before, sorted, |active| - pool.replicas);
        DeleteEach(excess);
      }
      NothingAdded(pool, Delete(kept, Names(excess)), now);
    }
  }

  lemma NoNames()
    ensures Names([]) == {}
  {
  }

  lemma NothingAdded(pool: Pool, pods: Pods, now: int)
    ensures pods + NewPods(pool, {}, now) == pods
  {
  }

  lemma OneAdded(pool: Pool, pods: Pods, names: set<Name>, n: Name, now: int)
    ensures (pods + NewPods(pool, names, now))[n := NewPod(pool, now)] == pods + NewPods(pool, names + {n}, now)
    ensures (pods + NewPods(pool, names, now)).Keys == pods.Keys + names
  {
  }

  lemma SomeOurs(pool: Pool, pods: Pods)
    ensures Active(pool, pods) <= pods.Keys && FailedOurs(pool, pods) <= pods.Keys
  {
  }

  lemma AdoptKeeps(pool: Pool, pods: Pods)
    ensures Adopt(pool, pods, pods.Keys).Keys == pods.Keys
    ensures forall n :: n in pods ==> Adopt(pool, pods, pods.Keys)[n].created == pods[n].created
  {
  }

  lemma DeleteKeeps(pods: Pods, names: set<Name>)
    ensures Delete(pods, names).Keys == pods.Keys
    ensures forall n :: n in pods ==> Delete(pods, names)[n].created == pods[n].created
  {
  }

  lemma DeleteNone(pods: Pods)
    ensures Delete(pods, {}) == pods
  {
  }

  lemma DeleteMore(pods: Pods, names: set<Name>, more: set<Name>)
    ensures Delete(Delete(pods, names), more) == Delete(pods, names + more)
    ensures Delete(pods, names).Keys == pods.Keys
  {
  }

  /** The first of a list sorted newest first are no older than the others. */
  lemma FirstAreNewest(pods: Pods, sorted: seq<Name>, k: nat)
    requires k <= |sorted| && Distinct(sorted) && (forall n :: n in sorted ==> n in pods) && NewestFirst(pods, sorted)
    ensures Names(sorted[..k]) <= Names(sorted) && Distinct(sorted[..k])
    ensures forall d, n :: d in Names(sorted[..k]) && n in Names(sorted) - Names(sorted[..k]) ==>
            pods[n].created <= pods[d].created
  {
    forall d, n | d in Names(sorted[..k]) && n in Names(sorted) - Names(sorted[..k])
      ensures pods[n].created <= pods[d].created
    {
      var i :| 0 <= i < k && sorted[i] == d;
      var j :| 0 <= j < |sorted| && sorted[j] == n;
      assert j >= k by {
        assert forall m :: 0 <= m < k ==> sorted[..k][m] == sorted[m];
      }
    }
  }

  lemma AdoptNone(pool: Pool, pods: Pods)
    ensures Adopt(pool, pods, {}) == pods
  {
  }

  lemma AdoptOne(pool: Pool, pods: Pods, names: set<Name>, n: Name)
    requires n in pods && n !in names
    ensures n in Adopt(pool, pods, names) && Adopt(pool, pods, names)[n] == pods[n]
    ensures Adopt(pool, pods, names + {n}) ==
            if Ours(pool, pods[n]) then Adopt(pool, pods, names)[n := pods[n].(owner := Some(pool.uid))]
            else Adopt(pool, pods, names)
  {
  }

  lemma AdoptAll(pool: Pool, pods: Pods, names: set<Name>)
    requires forall n :: n in pods && Labelled(pool, pods[n]) ==> n in names
    ensures Adopt(pool, pods, names) == Adopt(pool, pods, pods.Keys)
  {
  }

  // ----- what a reconcile leaves -----

  /** What becomes of a pod that was there. */
  lemma WhatBecomes(pool: Pool, pods: Pods, excess: set<Name>, added: set<Name>, now: int, n: Name)
    requires Chosen(pool, pods, excess, added) && n in pods
    ensures var r := Reconciled(pool, pods, excess, added, now);
            && n in r
            && (!Ours(pool, pods[n]) ==> r[n] == pods[n])
            && (Ours(pool, pods[n]) ==>
                  r[n] == pods[n].(owner := Some(pool.uid), deleting := n in excess || Failed(pods[n])))
  {
    hide Failed;
  }

  /** Pods of other controllers, of other pools, and pods already going are left as they are. */
  lemma OthersUntouched(pool: Pool, pods: Pods, excess: set<Name>, added: set<Name>, now: int, n: Name)
    requires Chosen(pool, pods, excess, added) && n in pods
    requires !Labelled(pool, pods[n]) || pods[n].deleting || (pods[n].owner.Some? && pods[n].owner.value != pool.uid)
    ensures n in Reconciled(pool, pods, excess, added, now) && Reconciled(pool, pods, excess, added, now)[n] == pods[n]
  {
    WhatBecomes(pool, pods, excess, added, now, n);
  }

  lemma NewPodCounts(pool: Pool, now: int)
    ensures !Failed(NewPod(pool, now)) && NewPod(pool, now).owner == Some(pool.uid)
    ensures Ours(pool, NewPod(pool, now)) <==> KeepsLabel(pool)
  {
  }

  lemma OldAfter(pool: Pool, pods: Pods, excess: set<Name>, added: set<Name>, now: int, n: Name)
    requires Chosen(pool, pods, excess, added) && n in pods
    ensures var r := Reconciled(pool, pods, excess, added, now);
            && n in r
            && (Ours(pool, r[n]) <==> n in Active(pool, pods) - excess)
            && (Ours(pool, r[n]) ==> r[n].owner == Some(pool.uid) && !Failed(r[n]))
  {
    hide Failed, Reconciled, Labelled;
    WhatBecomes(pool, pods, excess, added, now, n);
    var q := Reconciled(pool, pods, excess, added, now)[n];
    StillOurs(pool, pods[n], q);
    SameHealth(pods[n], q);
  }

  lemma NewAfter(pool: Pool, pods: Pods, excess: set<Name>, added: set<Name>, now: int, n: Name)
    requires Chosen(pool, pods, excess, added) && n in added
    ensures var r := Reconciled(pool, pods, excess, added, now);
            n in r && (Ours(pool, r[n]) <==> KeepsLabel(pool)) && r[n].owner == Some(pool.uid) && !Failed(r[n])
  {
    hide Failed, KeepsLabel, Reconciled, Ours, NewPod;
    NewPodCounts(pool, now);
    KeysAfter(pool, pods, excess, added, now);
  }

  lemma InLive(pool: Pool, pods: Pods, n: Name)
    ensures n in Live(pool, pods) <==>
            n in pods && Ours(pool, pods[n]) && pods[n].owner == Some(pool.uid) && !Failed(pods[n])
    ensures n in Active(pool, pods) <==> n in pods && Ours(pool, pods[n]) && !Failed(pods[n])
  {
  }

  /** One pod, old or new, after a reconcile. */
  lemma AnyAfter(pool: Pool, pods: Pods, excess: set<Name>, added: set<Name>, now: int, n: Name)
    requires Chosen(pool, pods, excess, added)
    ensures var r := Reconciled(pool, pods, excess, added, now);
            && (n in Live(pool, r) <==> n in Active(pool, pods) - excess || (KeepsLabel(pool) && n in added))
            && (n in Active(pool, r) <==> n in Live(pool, r))
            && (n in r && Ours(pool, r[n]) ==> r[n].owner == Some(pool.uid) && !Failed(r[n]))
  {
    hide Failed, KeepsLabel, Reconciled, Ours, NewPod, Live, Active;
    var r := Reconciled(pool, pods, excess, added, now);
    KeysAfter(pool, pods, excess, added, now);
    SomeOurs(pool, pods);
    InLive(pool, r, n);
    if n in pods {
      OldAfter(pool, pods, excess, added, now, n);
    } else if n in added {
      NewAfter(pool, pods, excess, added, now, n);
    }
  }

  lemma LiveAfter(pool: Pool, pods: Pods, excess: set<Name>, added: set<Name>, now: int)
    requires Chosen(pool, pods, excess, added)
    ensures var r := Reconciled(pool, pods, excess, added, now);
            && Live(pool, r) == (Active(pool, pods) - excess) + (if KeepsLabel(pool) then added else {})
            && Live(pool, r) == Active(pool, r)
            && (forall n :: n in r && Ours(pool, r[n]) ==> r[n].owner == Some(pool.uid) && !Failed(r[n]))
  {
    hide Failed, KeepsLabel, Reconciled, Ours, Live, Active, Chosen;
    var r := Reconciled(pool, pods, excess, added, now);
    forall n
      ensures n in Live(pool, r) <==> n in Active(pool, pods) - excess || (KeepsLabel(pool) && n in added)
      ensures n in Active(pool, r) <==> n in Live(pool, r)
      ensures n in r && Ours(pool, r[n]) ==> r[n].owner == Some(pool.uid) && !Failed(r[n])
    {
      AnyAfter(pool, pods, excess, added, now, n);
    }
  }

  lemma StillOurs(pool: Pool, p: Pod, q: Pod)
    requires q == p.(owner := q.owner, deleting := q.deleting)
    ensures Labelled(pool, q) == Labelled(pool, p)
  {
  }

  lemma SameHealth(p: Pod, q: Pod)
    requires q == p.(owner := q.owner, deleting := q.deleting)
    ensures Failed(q) == Failed(p)
  {
  }

  lemma KeysAfter(pool: Pool, pods: Pods, excess: set<Name>, added: set<Name>, now: int)
    requires Chosen(pool, pods, excess, added)
    ensures var r := Reconciled(pool, pods, excess, added, now);
            r.Keys == pods.Keys + added && forall n :: n in added ==> r[n] == NewPod(pool, now)
  {
    hide Failed, NewPod;
  }

  lemma SizeOfDifference(a: set<Name>, b: set<Name>)
    requires b <= a
    ensures |a - b| == |a| - |b|
  {
    assert a == (a - b) + b;
  }

  /**
   One reconcile leaves exactly the desired number of live, owned, healthy pods, and nothing for a second one to
   do, exactly when the template leaves new pods their pool label, or none had to be created.
   */
  lemma ReachesReplicasExactlyWhen(pool: Pool, pods: Pods, excess: set<Name>, added: set<Name>, now: int)
    requires Chosen(pool, pods, excess, added)
    ensures var r := Reconciled(pool, pods, excess, added, now);
            var fine := KeepsLabel(pool) || |Active(pool, pods)| >= pool.replicas;
            && (|Live(pool, r)| == pool.replicas <==> fine)
            && (Settled(pool, r) <==> fine)
  {
    hide Failed, KeepsLabel, Reconciled, Ours;
    LiveAfter(pool, pods, excess, added, now);
    SizeOfDifference(Active(pool, pods), excess);
    assert (Active(pool, pods) - excess) * added == {};
  }

  // ----- pass after pass -----

  /** The pods the pool owns and keeps alive without counting them. */
  function Uncounted(pool: Pool, pods: Pods): (s: set<Name>) {
    set n | n in pods && pods[n].owner == Some(pool.uid) && !pods[n].deleting && !Labelled(pool, pods[n])
  }

  datatype Pass = Pass(excess: set<Name>, added: set<Name>, now: int)

  ghost predicate Passes(pool: Pool, pods: Pods, passes: seq<Pass>)
    decreases |passes|
  {
    passes == [] ||
    (var p := passes[0];
     && Chosen(pool, pods, p.excess, p.added)
     && Passes(pool, Reconciled(pool, pods, p.excess, p.added, p.now), passes[1..]))
  }

  ghost function AfterPasses(pool: Pool, pods: Pods, passes: seq<Pass>): (r: Pods)
    requires Passes(pool, pods, passes)
    decreases |passes|
  {
    if passes == [] then pods
    else var p := passes[0]; AfterPasses(pool, Reconciled(pool, pods, p.excess, p.added, p.now), passes[1..])
  }

  lemma UncountedOne(pool: Pool, pods: Pods, excess: set<Name>, added: set<Name>, now: int, n: Name)
    requires Chosen(pool, pods, excess, added)
    ensures var r := Reconciled(pool, pods, excess, added, now);
            n in Uncounted(pool, r) <==> n in Uncounted(pool, pods) || (!KeepsLabel(pool) && n in added)
  {
    hide Failed, Reconciled, NewPod;
    KeysAfter(pool, pods, excess, added, now);
    if n in pods {
      WhatBecomes(pool, pods, excess, added, now, n);
    } else if n in added {
      NewPodCounts(pool, now);
      NewPodStays(pool, now);
    }
  }

  lemma NewPodStays(pool: Pool, now: int)
    ensures !NewPod(pool, now).deleting
  {
  }

  /** Without the pool label every pod created is one more that is not counted. */
  lemma UncountedAfter(pool: Pool, pods: Pods, excess: set<Name>, added: set<Name>, now: int)
    requires Chosen(pool, pods, excess, added)
    ensures var r := Reconciled(pool, pods, excess, added, now);
            |Uncounted(pool, r)| == |Uncounted(pool, pods)| + (if KeepsLabel(pool) then 0 else |added|)
  {
    hide Reconciled, KeepsLabel, Uncounted;
    var r := Reconciled(pool, pods, excess, added, now);
    forall n ensures n in Uncounted(pool, r) <==> n in Uncounted(pool, pods) || (!KeepsLabel(pool) && n in added) {
      UncountedOne(pool, pods, excess, added, now, n);
    }
    UncountedThere(pool, pods);
    assert Uncounted(pool, r) == Uncounted(pool, pods) + (if KeepsLabel(pool) then {} else added);
  }

  lemma UncountedThere(pool: Pool, pods: Pods)
    ensures Uncounted(pool, pods) <= pods.Keys
  {
  }

  /** How many pods a pass still finds missing after this one. */
  lemma MissingAfter(pool: Pool, pods: Pods, excess: set<Name>, added: set<Name>, now: int)
    requires Chosen(pool, pods, excess, added)
    ensures var missing := Least(pool.replicas - |Active(pool, pods)|);
            var r := Reconciled(pool, pods, excess, added, now);
            Least(pool.replicas - |Active(pool, r)|) == if KeepsLabel(pool) then 0 else missing
  {
    hide Failed, KeepsLabel, Reconciled, Ours, Active, Live;
    LiveAfter(pool, pods, excess, added, now);
    SizeOfDifference(Active(pool, pods), excess);
    SomeOurs(pool, pods);
    assert (Active(pool, pods) - excess) * added == {};
  }

  /**
   Over any number of passes: where the template takes the pool label away, every pass creates all that is missing once
   more, and none of it ever counts; where it does not, no pass adds an uncounted pod.
   */
  lemma {:induction false} PassesPileUpExactlyWithoutLabel(pool: Pool, pods: Pods, passes: seq<Pass>)
    requires Passes(pool, pods, passes)
    ensures var missing := Least(pool.replicas - |Active(pool, pods)|);
            |Uncounted(pool, AfterPasses(pool, pods, passes))| ==
            |Uncounted(pool, pods)| + (if KeepsLabel(pool) then 0 else |passes| * missing)
    decreases |passes|
  {
    hide Reconciled, KeepsLabel, Uncounted, Active;
    if passes != [] {
      var p := passes[0];
      UncountedAfter(pool, pods, p.excess, p.added, p.now);
      MissingAfter(pool, pods, p.excess, p.added, p.now);
      PassesPileUpExactlyWithoutLabel(pool, Reconciled(pool, pods, p.excess, p.added, p.now), passes[1..]);
      var missing := Least(pool.replicas - |Active(pool, pods)|);
      assert |passes[1..]| * missing + missing == |passes| * missing;
    }
  }

  /** A pool of one replica whose template names another pool. */
  const MISLABELLED := Pool("uid", "ours", 1, "template", map[POOL_LABEL := "theirs"])

  const NONE: Pods := map[]
  const ONE: Pods := map[0 := NewPod(MISLABELLED, 0)]

  /** It starts with no pods; the pod created does not count, so the next pass creates another. */
  lemma MislabelledPoolGrows()
    ensures Chosen(MISLABELLED, NONE, {}, {0}) && Reconciled(MISLABELLED, NONE, {}, {0}, 0) == ONE
    ensures Live(MISLABELLED, ONE) == {} && !Settled(MISLABELLED, ONE)
    ensures Chosen(MISLABELLED, ONE, {}, {1})
  {
    hide Failed;
    assert Active(MISLABELLED, NONE) == {};
    assert FailedOurs(MISLABELLED, NONE) == {};
    assert NewLabels(MISLABELLED)[POOL_LABEL] == "theirs";
    assert Active(MISLABELLED, ONE) == {};
    assert Reconciled(MISLABELLED, NONE, {}, {0}, 0) == NewPods(MISLABELLED, {0}, 0);
  }

  /** No pod is kept that is strictly newer than one deleted as excess. */
  lemma KeepsTheOldest(pool: Pool, pods: Pods, excess: set<Name>, added: set<Name>, now: int, kept: Name, gone: Name)
    requires Chosen(pool, pods, excess, added) && kept in pods && gone in excess
    requires kept in Live(pool, Reconciled(pool, pods, excess, added, now))
    ensures pods[kept].created <= pods[gone].created
    ensures Reconciled(pool, pods, excess, added, now)[gone].deleting
  {
    hide Failed, Reconciled;
    LiveAfter(pool, pods, excess, added, now);
    WhatBecomes(pool, pods, excess, added, now, gone);
  }

  /** Where there is nothing to do, a reconcile creates, deletes and changes nothing. */
  lemma SettledStays(pool: Pool, pods: Pods, excess: set<Name>, added: set<Name>, now: int)
    requires Settled(pool, pods) && Chosen(pool, pods, excess, added)
    ensures excess == {} && added == {} && Reconciled(pool, pods, excess, added, now) == pods
  {
    hide Failed, Reconciled, Ours;
    var r := Reconciled(pool, pods, excess, added, now);
    KeysAfter(pool, pods, excess, added, now);
    forall n | n in pods ensures r[n] == pods[n] {
      OursIsLive(pool, pods[n]);
      WhatBecomes(pool, pods, excess, added, now, n);
    }
  }

  lemma OursIsLive(pool: Pool, p: Pod)
    ensures Ours(pool, p) ==> !p.deleting
  {
  }

  /** A second reconcile right after the first does nothing, wherever the template leaves the pool label alone. */
  method Twice(c: Cluster, pool: Pool, now: int, later: int) returns (excess: seq<Name>, added: seq<Name>)
    requires c.Valid() && KeepsLabel(pool)
    modifies c
    ensures excess == [] && added == [] && |Live(pool, c.pods)| == pool.replicas
  {
    hide Chosen, Reconciled, Live, Settled;
    var before := c.pods;
    var gone, new1 := c.ReconcilePool(pool, now);
    ReachesReplicasExactlyWhen(pool, before, Names(gone), Names(new1), now);
    var after := c.pods;
    excess, added := c.ReconcilePool(pool, later);
    SettledStays(pool, after, Names(excess), Names(added), later);
    NoNamesAtAll(excess);
    NoNamesAtAll(added);
  }

  lemma NoNamesAtAll(s: seq<Name>)
    ensures Names(s) == {} ==> s == []
  {
    if s != [] {
      assert s[0] in Names(s);
    }
  }
}

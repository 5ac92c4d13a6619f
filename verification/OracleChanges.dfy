/** Sorting the changes of a proposal, and what lists of changes do to one task. */
module OracleChanges {
  import opened Base
  import opened SharedState
  import opened Oracle

  // ---------------------------------------------------------------- the stable sort

  lemma {:induction false} OfRankAppend(a: seq<StateChange>, b: seq<StateChange>, r: nat)
    ensures OfRank(a + b, r) == OfRank(a, r) + OfRank(b, r)
  {
    if b == [] {
      assert a + b == a;
    } else {
      OfRankAppend(a, b[..|b| - 1], r);
      assert (a + b)[..|a + b| - 1] == a + b[..|b| - 1];
    }
  }

  lemma {:induction false} OfOneRank(a: seq<StateChange>, rank: nat, r: nat)
    requires forall i | 0 <= i < |a| :: a[i].Rank() == rank
    ensures OfRank(a, r) == if r == rank then a else []
  {
    if a != [] {
      OfOneRank(a[..|a| - 1], rank, r);
    }
  }

  /** The list of one rank has exactly the elements of that rank, each as often. */
  lemma {:induction false} OfRankCounts(a: seq<StateChange>, r: nat, x: StateChange)
    ensures multiset(OfRank(a, r))[x] == if x.Rank() == r then multiset(a)[x] else 0
  {
    if a != [] {
      OfRankCounts(a[..|a| - 1], r, x);
      assert a == a[..|a| - 1] + [a[|a| - 1]];
    }
  }

  ghost predicate Sorted(a: seq<StateChange>) {
    forall i, j | 0 <= i < j < |a| :: a[i].Rank() <= a[j].Rank()
  }

  lemma {:induction false} OfRankRanks(a: seq<StateChange>, r: nat)
    ensures forall i | 0 <= i < |OfRank(a, r)| :: OfRank(a, r)[i].Rank() == r
  {
    if a != [] {
      OfRankRanks(a[..|a| - 1], r);
    }
  }

  lemma {:induction false} SortBelowSorted(a: seq<StateChange>, r: nat)
    ensures Sorted(SortBelow(a, r))
    ensures forall i | 0 <= i < |SortBelow(a, r)| :: SortBelow(a, r)[i].Rank() < r
  {
    hide OfRank;
    if r > 0 {
      SortBelowSorted(a, r - 1);
      OfRankRanks(a, r - 1);
    }
  }

  lemma {:induction false} SortBelowRanks(a: seq<StateChange>, r: nat, k: nat)
    ensures OfRank(SortBelow(a, r), k) == if k < r then OfRank(a, k) else []
  {
    hide OfRank;
    if r == 0 {
      EmptyRank([], k);
    } else {
      var b, c := SortBelow(a, r - 1), OfRank(a, r - 1);
      SortBelowRanks(a, r - 1, k);
      OfRankRanks(a, r - 1);
      RanksOfTwo(b, c, r - 1, k);
    }
  }

  lemma RanksOfTwo(b: seq<StateChange>, c: seq<StateChange>, r: nat, k: nat)
    requires forall i | 0 <= i < |c| :: c[i].Rank() == r
    ensures OfRank(b + c, k) == if k == r then OfRank(b, k) + c else OfRank(b, k)
  {
    hide OfRank;
    OfRankAppend(b, c, k);
    OfOneRank(c, r, k);
  }

  /** The sort is a permutation, ordered by rank, that keeps the order of changes of the same rank. */
  lemma SortSorts(a: seq<StateChange>)
    ensures Sorted(Sort(a))
    ensures multiset(Sort(a)) == multiset(a)
    ensures forall k: nat :: OfRank(Sort(a), k) == OfRank(a, k)
  {
    SortBelowSorted(a, 8);
    forall k: nat ensures OfRank(Sort(a), k) == OfRank(a, k) {
      SortBelowRanks(a, 8, k);
      if k >= 8 { NoSuchRank(a, k); }
    }
    forall x ensures multiset(Sort(a))[x] == multiset(a)[x] {
      OfRankCounts(a, x.Rank(), x);
      OfRankCounts(Sort(a), x.Rank(), x);
    }
  }

  lemma {:induction false} NoSuchRank(a: seq<StateChange>, k: nat)
    requires k >= 8
    ensures OfRank(a, k) == []
  {
    if a != [] {
      NoSuchRank(a[..|a| - 1], k);
    }
  }

  lemma {:induction false} SortBelowLast(front: seq<StateChange>, last: StateChange, r: nat)
    requires forall i | 0 <= i < |front| :: front[i].Rank() <= last.Rank()
    ensures SortBelow(front + [last], r) == SortBelow(front, r) + (if last.Rank() < r then [last] else [])
  {
    hide OfRank;
    if r > 0 {
      SortBelowLast(front, last, r - 1);
      OfRankAppend(front, [last], r - 1);
      OfOneRank([last], last.Rank(), r - 1);
      if last.Rank() < r - 1 {
        EmptyRank(front, r - 1);
      }
    }
  }

  lemma {:induction false} EmptyRank(a: seq<StateChange>, r: nat)
    requires forall i | 0 <= i < |a| :: a[i].Rank() != r
    ensures OfRank(a, r) == []
  {
    if a != [] {
      EmptyRank(a[..|a| - 1], r);
    }
  }

  lemma {:induction false} SortOfSorted(a: seq<StateChange>)
    requires Sorted(a)
    ensures Sort(a) == a
  {
    hide OfRank;
    hide SortBelow;
    if a == [] {
      EmptySort(8);
    } else {
      var front, last := a[..|a| - 1], a[|a| - 1];
      SortOfSorted(front);
      SortBelowLast(front, last, 8);
      assert a == front + [last];
    }
  }

  lemma {:induction false} EmptySort(r: nat)
    ensures SortBelow([], r) == []
  {
    if r > 0 {
      EmptySort(r - 1);
    }
  }

  lemma {:induction false} SortBelowSame(a: seq<StateChange>, b: seq<StateChange>, r: nat)
    requires forall k: nat :: OfRank(a, k) == OfRank(b, k)
    ensures SortBelow(a, r) == SortBelow(b, r)
  {
    hide OfRank;
    if r > 0 {
      SortBelowSame(a, b, r - 1);
      assert OfRank(a, r - 1) == OfRank(b, r - 1);
    }
  }

  /** The sorted list is the only one ordered by rank with the same changes of each rank. */
  lemma SortUnique(a: seq<StateChange>, b: seq<StateChange>)
    requires Sorted(b) && forall k: nat :: OfRank(a, k) == OfRank(b, k)
    ensures Sort(a) == b
  {
    SortBelowSame(a, b, 8);
    SortOfSorted(b);
  }

  /** A failure is executed as: releases, the new manager, the count, and the end of the task last. */
  lemma SortFailure(nb: uint64, workers: seq<PeerId>, end: seq<StateChange>)
    requires |end| <= 1 && forall i | 0 <= i < |end| :: end[i].Fail?
    ensures Sort([SetNbFailures(nb)] + UnassignAll(workers) + end + [AddManager])
            == UnassignAll(workers) + [AddManager, SetNbFailures(nb)] + end
  {
    hide OfRank;
    hide Sort;
    var n: seq<StateChange>, m: seq<StateChange>, u := [SetNbFailures(nb)], [AddManager], UnassignAll(workers);
    forall k: nat ensures OfRank(n + u + end + m, k) == OfRank(u + (m + n) + end, k) {
      SameRanks(n, u, end, m, k);
    }
    assert m + n == [AddManager, SetNbFailures(nb)];
    SortUnique(n + u + end + m, u + (m + n) + end);
  }

  lemma SameRanks(n: seq<StateChange>, u: seq<StateChange>, end: seq<StateChange>, m: seq<StateChange>, k: nat)
    requires forall i | 0 <= i < |n| :: n[i].SetNbFailures?
    requires forall i | 0 <= i < |u| :: u[i].UnassignWorker?
    requires forall i | 0 <= i < |end| :: end[i].Fail?
    requires forall i | 0 <= i < |m| :: m[i].AddManager?
    ensures OfRank(n + u + end + m, k) == OfRank(u + (m + n) + end, k)
  {
    hide OfRank;
    OfRankAppend(n + u + end, m, k);
    OfRankAppend(n + u, end, k);
    OfRankAppend(n, u, k);
    OfRankAppend(u + (m + n), end, k);
    OfRankAppend(u, m + n, k);
    OfRankAppend(m, n, k);
    OfOneRank(n, 5, k);
    OfOneRank(m, 4, k);
    OfOneRank(u, 2, k);
    OfOneRank(end, 7, k);
  }

  /** A completion registers the manager first, so the contract never sees an empty manager list. */
  lemma SortCompletion(result: Bytes)
    ensures Sort([Complete(result)] + [AddManager]) == [AddManager, Complete(result)]
  {
    var a: seq<StateChange> := [Complete(result)];
    var m: seq<StateChange> := [AddManager];
    forall k: nat ensures OfRank(a + m, k) == OfRank(m + a, k) {
      OfRankAppend(a, m, k);
      OfRankAppend(m, a, k);
      OfOneRank(a, 6, k);
      OfOneRank(m, 4, k);
    }
    SortUnique(a + m, m + a);
    assert m + a == [AddManager, Complete(result)];
  }

  // ---------------------------------------------------------------- what the node was told

  ghost function Pendings(notices: seq<(Id, Notice)>, id: Id): nat {
    if notices == [] then 0
    else
      var last := notices[|notices| - 1];
      Pendings(notices[..|notices| - 1], id) + (if last.0 == id && last.1.Pending? then 1 else 0)
  }

  ghost function Assignments(notices: seq<(Id, Notice)>, id: Id): nat {
    if notices == [] then 0
    else
      var last := notices[|notices| - 1];
      Assignments(notices[..|notices| - 1], id) + (if last.0 == id && last.1.AssignedTo? then 1 else 0)
  }

  ghost function Unassignments(notices: seq<(Id, Notice)>, id: Id): nat {
    if notices == [] then 0
    else
      var last := notices[|notices| - 1];
      Unassignments(notices[..|notices| - 1], id) + (if last.0 == id && last.1.UnassignedFrom? then 1 else 0)
  }

  lemma {:induction false} CountsAppend(a: seq<(Id, Notice)>, b: seq<(Id, Notice)>, id: Id)
    ensures Pendings(a + b, id) == Pendings(a, id) + Pendings(b, id)
    ensures Assignments(a + b, id) == Assignments(a, id) + Assignments(b, id)
    ensures Unassignments(a + b, id) == Unassignments(a, id) + Unassignments(b, id)
  {
    if b == [] {
      assert a + b == a;
    } else {
      CountsAppend(a, b[..|b| - 1], id);
      assert (a + b)[..|a + b| - 1] == a + b[..|b| - 1];
    }
  }

  lemma {:induction false} CountsOther(a: seq<(Id, Notice)>, id: Id)
    requires forall i | 0 <= i < |a| :: a[i].0 != id
    ensures Pendings(a, id) == Assignments(a, id) == Unassignments(a, id) == 0
  {
    if a != [] {
      CountsOther(a[..|a| - 1], id);
    }
  }

  /** Replicas announced as pending and not yet assigned, and replicas announced as assigned. */
  ghost function FreeTold(w: World, id: Id): int {
    Pendings(w.shared.notices, id) - Assignments(w.shared.notices, id)
  }

  ghost function BusyTold(w: World, id: Id): int {
    Assignments(w.shared.notices, id) - Unassignments(w.shared.notices, id)
  }

  // ---------------------------------------------------------------- steps on one incomplete task

  ghost predicate Open(w: World, id: Id) {
    id in w.shared.tasks && w.shared.tasks[id].completeness.Incomplete?
  }

  ghost function Subs(w: World, id: Id): seq<Option<Assigned>>
    requires Open(w, id)
  {
    w.shared.tasks[id].completeness.substates
  }

  /** Only task `id` changes, it stays open, and the node is told exactly how its replicas moved. */
  ghost predicate Steady(w: World, w': World, id: Id) {
    && Open(w, id) && Open(w', id)
    && w'.ledger == w.ledger && w'.shared.jobs == w.shared.jobs
    && w'.shared.tasks == w.shared.tasks[id := w'.shared.tasks[id]]
    && w'.shared.tasks[id].jobId == w.shared.tasks[id].jobId
    && w'.shared.tasks[id].argId == w.shared.tasks[id].argId
    && |Subs(w', id)| == |Subs(w, id)| && Distinct(Subs(w', id))
    && FreeTold(w', id) - Free(Subs(w', id)) == FreeTold(w, id) - Free(Subs(w, id))
    && BusyTold(w', id) + Free(Subs(w', id)) == BusyTold(w, id) + Free(Subs(w, id))
    && OnlyAbout(w.shared.notices, w'.shared.notices, id)
  }

  ghost predicate OnlyAbout(before: seq<(Id, Notice)>, after: seq<(Id, Notice)>, id: Id) {
    && |before| <= |after|
    && after[..|before|] == before
    && forall i | |before| <= i < |after| :: after[i].0 == id
  }

  lemma SteadyTrans(w: World, w1: World, w2: World, id: Id)
    requires Steady(w, w1, id) && Steady(w1, w2, id)
    ensures Steady(w, w2, id)
  {
    var a, b, c := w.shared.notices, w1.shared.notices, w2.shared.notices;
    assert c[..|a|] == c[..|b|][..|a|];
    forall i | |a| <= i < |c| ensures c[i].0 == id {
      if i < |b| { assert c[i] == c[..|b|][i]; }
    }
  }

  predicate Plain(change: StateChange) {
    !change.Create? && !change.Complete? && !change.Fail?
  }

  lemma NotifyCounts(w: World, id: Id, notices: seq<Notice>)
    ensures var w' := Notify(w, id, notices);
            var more := w'.shared.notices[|w.shared.notices|..];
            && OnlyAbout(w.shared.notices, w'.shared.notices, id)
            && FreeTold(w', id) == FreeTold(w, id) + Pendings(more, id) - Assignments(more, id)
            && BusyTold(w', id) == BusyTold(w, id) + Assignments(more, id) - Unassignments(more, id)
  {
    var w' := Notify(w, id, notices);
    var more := w'.shared.notices[|w.shared.notices|..];
    assert w'.shared.notices == w.shared.notices + more;
    CountsAppend(w.shared.notices, more, id);
  }

  /** Every change but creating and finishing a task is steady. */
  lemma ApplySteady(env: Env, w: World, id: Id, manager: Address, change: StateChange)
    requires Open(w, id) && Distinct(Subs(w, id)) && Plain(change)
    requires Apply(env, w, id, manager, change).Done?
    ensures Steady(w, Apply(env, w, id, manager, change).world, id)
  {
    var t := w.shared.tasks[id];
    var c := t.completeness;
    assert w.shared.notices[..|w.shared.notices|] == w.shared.notices;
    match change
    case Check(worker) => TouchKeeps(c, worker, env.now);
    case UnassignWorker(worker) =>
      UnassignKeeps(c, worker);
      var a := c.substates[FindWorker(c.substates, worker)];
      UnassignTold(WithTask(w, id, t.(completeness := Unassign(c, worker))), id, a.value.worker, a.value.workersManager);
    case AssignWorker(worker, workersManager, payment) =>
      AssignKeeps(c, Assigned(env.now, worker, workersManager, payment));
      AssignTold(WithTask(w, id, t.(completeness := Assign(c, Assigned(env.now, worker, workersManager, payment)))), id, worker);
    case _ =>
  }

  lemma AssignTold(w: World, id: Id, worker: PeerId)
    ensures var w' := Notify(w, id, [AssignedTo(worker)]);
            && FreeTold(w', id) == FreeTold(w, id) - 1 && BusyTold(w', id) == BusyTold(w, id) + 1
            && OnlyAbout(w.shared.notices, w'.shared.notices, id)
  {
    NotifyCounts(w, id, [AssignedTo(worker)]);
    var more := Notify(w, id, [AssignedTo(worker)]).shared.notices[|w.shared.notices|..];
    assert more == [(id, AssignedTo(worker))];
  }

  lemma UnassignTold(w: World, id: Id, worker: PeerId, workersManager: PeerId)
    ensures var w' := Notify(w, id, [UnassignedFrom(worker, workersManager), Pending]);
            && FreeTold(w', id) == FreeTold(w, id) + 1 && BusyTold(w', id) == BusyTold(w, id) - 1
            && OnlyAbout(w.shared.notices, w'.shared.notices, id)
  {
    NotifyCounts(w, id, [UnassignedFrom(worker, workersManager), Pending]);
    var more := Notify(w, id, [UnassignedFrom(worker, workersManager), Pending]).shared.notices[|w.shared.notices|..];
    assert more == [(id, UnassignedFrom(worker, workersManager))] + [(id, Pending)];
    CountsAppend([(id, UnassignedFrom(worker, workersManager))], [(id, Pending)], id);
  }

  lemma {:induction false} ApplyAllAppend(env: Env, w: World, id: Id, manager: Address, a: seq<StateChange>, b: seq<StateChange>)
    ensures ApplyAll(env, w, id, manager, a + b)
            == match ApplyAll(env, w, id, manager, a)
               case Stop(w') => Stop(w')
               case Done(w') => ApplyAll(env, w', id, manager, b)
  {
    hide Apply;
    if b == [] {
      assert a + b == a;
    } else {
      ApplyAllAppend(env, w, id, manager, a, b[..|b| - 1]);
      assert (a + b)[..|a + b| - 1] == a + b[..|b| - 1];
    }
  }

  // ---------------------------------------------------------------- releasing workers

  ghost predicate NoRepeat(workers: seq<PeerId>) {
    forall i, j | 0 <= i < j < |workers| :: workers[i] != workers[j]
  }

  ghost predicate SameBooks(w: World, w': World, id: Id)
    requires Open(w, id) && Open(w', id)
  {
    w'.shared.tasks[id] == w.shared.tasks[id].(completeness := w'.shared.tasks[id].completeness)
  }

  ghost predicate Assigns(w: World, id: Id, worker: PeerId)
    requires Open(w, id)
  {
    SharedState.AssignedTo(w.shared.tasks[id].completeness, worker)
  }

  lemma NothingSteady(w: World, id: Id)
    requires Open(w, id) && Distinct(Subs(w, id))
    ensures Steady(w, w, id)
  {
    assert w.shared.notices[..|w.shared.notices|] == w.shared.notices;
  }

  /** Releasing distinct assigned workers always succeeds, and releases exactly them. */
  lemma {:induction false} UnassignBatch(env: Env, w: World, id: Id, manager: Address, workers: seq<PeerId>)
    requires Open(w, id) && Distinct(Subs(w, id)) && NoRepeat(workers)
    requires forall i | 0 <= i < |workers| :: Assigns(w, id, workers[i])
    ensures var r := ApplyAll(env, w, id, manager, UnassignAll(workers));
            && r.Done? && Steady(w, r.world, id) && SameBooks(w, r.world, id)
            && Free(Subs(r.world, id)) == Free(Subs(w, id)) + |workers|
            && forall p :: Assigns(r.world, id, p) <==> Assigns(w, id, p) && p !in workers
  {
    hide Apply;
    hide FreeTold;
    hide BusyTold;
    hide OnlyAbout;
    hide Free;
    hide FindWorker;
    if workers == [] {
      NothingSteady(w, id);
    } else {
      var n := |workers| - 1;
      var front, last := workers[..n], workers[n];
      UnassignBatch(env, w, id, manager, front);
      assert UnassignAll(workers)[..n] == UnassignAll(front);
      var w1 := ApplyAll(env, w, id, manager, UnassignAll(front)).world;
      assert Assigns(w, id, workers[n]);
      UnassignOne(env, w1, id, manager, last);
      var r := Apply(env, w1, id, manager, UnassignWorker(last));
      assert ApplyAll(env, w, id, manager, UnassignAll(workers)) == r;
      SteadyTrans(w, w1, r.world, id);
      assert workers == front + [last];
    }
  }

  lemma UnassignOne(env: Env, w: World, id: Id, manager: Address, worker: PeerId)
    requires Open(w, id) && Distinct(Subs(w, id)) && Assigns(w, id, worker)
    ensures var r := Apply(env, w, id, manager, UnassignWorker(worker));
            && r.Done? && Steady(w, r.world, id) && SameBooks(w, r.world, id)
            && Free(Subs(r.world, id)) == Free(Subs(w, id)) + 1
            && forall p :: Assigns(r.world, id, p) <==> Assigns(w, id, p) && p != worker
  {
    ApplySteady(env, w, id, manager, UnassignWorker(worker));
    UnassignKeeps(w.shared.tasks[id].completeness, worker);
  }

  /** The workers of the assigned replicas: each of them once, and all of them. */
  lemma {:induction false} WorkersOfAll(subs: seq<Option<Assigned>>)
    requires Distinct(subs)
    ensures NoRepeat(WorkersOf(subs)) && |WorkersOf(subs)| == |subs| - Free(subs)
    ensures forall p :: p in WorkersOf(subs) <==> FindWorker(subs, p) < |subs|
  {
    if subs != [] {
      var n := |subs| - 1;
      var front := subs[..n];
      WorkersOfAll(front);
      forall p ensures p in WorkersOf(subs) <==> FindWorker(subs, p) < |subs| {
        var k, k' := FindWorker(subs, p), FindWorker(front, p);
        if k < n { assert Holds(front[k], p); }
        if k' < n { assert Holds(subs[k'], p); }
        if Holds(subs[n], p) { assert k <= n; }
      }
      if subs[n].Some? {
        var p := subs[n].value.worker;
        assert forall k | 0 <= k < n :: front[k] == subs[k];
        assert !(FindWorker(front, p) < n);
      }
    }
  }

  // ---------------------------------------------------------------- assigning workers

  function OfferWorkers(t: TaskData, id: Id, offers: seq<Offer>): seq<PeerId>
    requires forall i | 0 <= i < |offers| :: OfferOk(t, id, offers[i])
  {
    seq(|offers|, i requires 0 <= i < |offers| && OfferOk(t, id, offers[i]) => offers[i].worker.value)
  }

  lemma AssignOne(env: Env, w: World, id: Id, manager: Address, o: Offer)
    requires Open(w, id) && Distinct(Subs(w, id)) && Free(Subs(w, id)) > 0
    requires o.payment.Some? && o.worker.Some? && o.workersManager.Some?
    ensures var r := Apply(env, w, id, manager, AssignFor(o));
            && (r.Done? <==> !Assigns(w, id, o.worker.value))
            && (r.Done? ==>
                  && Steady(w, r.world, id) && SameBooks(w, r.world, id)
                  && Free(Subs(r.world, id)) == Free(Subs(w, id)) - 1
                  && forall p :: Assigns(r.world, id, p) <==> Assigns(w, id, p) || p == o.worker.value)
  {
    var c := w.shared.tasks[id].completeness;
    FreeBounds(c.substates);
    if !Assigns(w, id, o.worker.value) {
      ApplySteady(env, w, id, manager, AssignFor(o));
      AssignKeeps(c, Assigned(env.now, o.worker.value, o.workersManager.value,
                              PaymentInfo(o.payment.value, o.workerPrice, o.networkPrice)));
    }
  }

  /** Accepted offers are all assigned exactly when no worker is named twice. */
  lemma {:induction false} AssignBatch(env: Env, w: World, id: Id, manager: Address, t: TaskData, offers: seq<Offer>)
    requires Open(w, id) && Distinct(Subs(w, id)) && |offers| <= Free(Subs(w, id))
    requires forall i | 0 <= i < |offers| :: OfferOk(t, id, offers[i])
    requires t.completeness == w.shared.tasks[id].completeness
    ensures var r := ApplyAll(env, w, id, manager, AssignAll(t, id, offers));
            var workers := OfferWorkers(t, id, offers);
            && (r.Done? <==> NoRepeat(workers))
            && (r.Done? ==>
                  && Steady(w, r.world, id) && SameBooks(w, r.world, id)
                  && Free(Subs(r.world, id)) == Free(Subs(w, id)) - |offers|
                  && forall p :: Assigns(r.world, id, p) <==> Assigns(w, id, p) || p in workers)
  {
    hide Apply;
    hide FreeTold;
    hide BusyTold;
    hide OnlyAbout;
    hide FindWorker;
    if offers == [] {
      NothingSteady(w, id);
    } else {
      var n := |offers| - 1;
      var front, last := offers[..n], offers[n];
      AssignBatch(env, w, id, manager, t, front);
      assert AssignAll(t, id, offers)[..n] == AssignAll(t, id, front);
      var workers := OfferWorkers(t, id, offers);
      assert workers[..n] == OfferWorkers(t, id, front);
      assert workers == workers[..n] + [last.worker.value];
      var r := ApplyAll(env, w, id, manager, AssignAll(t, id, front));
      if r.Done? {
        AssignOne(env, r.world, id, manager, last);
        var r' := Apply(env, r.world, id, manager, AssignFor(last));
        assert ApplyAll(env, w, id, manager, AssignAll(t, id, offers)) == r';
        if r'.Done? {
          SteadyTrans(w, r.world, r'.world, id);
        } else {
          assert OfferOk(t, id, offers[n]);
          assert last.worker.value in workers[..n];
          var i :| 0 <= i < n && workers[..n][i] == last.worker.value;
          assert workers[i] == workers[n];
        }
      } else {
        assert !NoRepeat(workers[..n]);
      }
    }
  }
}

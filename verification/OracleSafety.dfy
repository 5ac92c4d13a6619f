/**
 The shared state and the contract agree after every step, the counts announced to the node match
 the replicas, and a proposal stops the oracle in exactly the cases listed by `Halts`.
 */
module OracleSafety {
  import opened Base
  import opened SharedState
  import opened Oracle
  import opened OracleChanges
  import opened OracleChain
  import Escrow
  import EscrowSafety

  // ---------------------------------------------------------------- invariant

  ghost predicate JobKnown(w: World, j: Id)
    requires j in w.shared.jobs
  {
    j in w.ledger.jobs && !w.ledger.jobs[j].isDraft && w.shared.jobs[j] == InfoOf(w.ledger.jobs[j])
  }

  /** The shared record of a task against the contract's, and against what the node was told. */
  ghost predicate TaskShape(w: World, id: Id)
    requires id in w.shared.tasks
  {
    var t := w.shared.tasks[id];
    && t.jobId in w.shared.jobs && id in w.ledger.tasks
    && w.ledger.tasks[id].jobId == t.jobId && w.ledger.tasks[id].argumentId == t.argId
    && Agrees(t, w.ledger.tasks[id])
    && match t.completeness
       case Incomplete(subs) =>
         && |subs| == w.shared.jobs[t.jobId].redundancy && Distinct(subs)
         && FreeTold(w, id) == Free(subs) && BusyTold(w, id) == |subs| - Free(subs)
       case DefinetelyFailed(_) => BusyTold(w, id) == 0
       case Completed(_, payments) =>
         |payments| == w.shared.jobs[t.jobId].redundancy && BusyTold(w, id) == |payments|
  }

  ghost predicate Agrees(t: TaskData, c: Escrow.Task) {
    match t.completeness
    case Incomplete(_) => c.state == Escrow.Incomplete
    case DefinetelyFailed(reason) =>
      c.state == Escrow.DefinetelyFailed && ToContract(reason) == Some(c.reason) && c.managers == t.managers
    case Completed(result, _) =>
      c.state == Escrow.Completed && c.result == result && c.managers == t.managers
  }

  /** A task is definitely failed exactly when it has failed more often than its job allows. */
  ghost predicate CountOk(w: World, id: Id)
    requires id in w.shared.tasks && w.shared.tasks[id].jobId in w.shared.jobs
  {
    var t := w.shared.tasks[id];
    t.completeness.DefinetelyFailed? <==> t.nbFailures > w.shared.jobs[t.jobId].maxFailures
  }

  ghost predicate Untold(w: World, id: Id) {
    Pendings(w.shared.notices, id) == Assignments(w.shared.notices, id) == Unassignments(w.shared.notices, id) == 0
  }

  ghost predicate Core(h: Escrow.Hashes, w: World) {
    && EscrowSafety.Inv(h, w.ledger)
    && (forall id | id in w.ledger.tasks && w.ledger.tasks[id].state == Escrow.Incomplete :: w.ledger.tasks[id].managers == [])
    && (forall id | id in w.ledger.tasks && id !in w.shared.tasks :: w.ledger.tasks[id].state == Escrow.Incomplete)
    && (forall j | j in w.shared.jobs :: JobKnown(w, j))
    && (forall id | id in w.shared.tasks :: TaskShape(w, id))
    && (forall id | id !in w.shared.tasks :: Untold(w, id))
  }

  ghost predicate WorldOk(h: Escrow.Hashes, w: World) {
    Core(h, w) && forall id | id in w.shared.tasks :: TaskShape(w, id) && CountOk(w, id)
  }

  // ---------------------------------------------------------------- steps that keep a task open

  lemma OnlyAboutCounts(w: World, w': World, id: Id, k: Id)
    requires OnlyAbout(w.shared.notices, w'.shared.notices, id) && k != id
    ensures Pendings(w'.shared.notices, k) == Pendings(w.shared.notices, k)
    ensures Assignments(w'.shared.notices, k) == Assignments(w.shared.notices, k)
    ensures Unassignments(w'.shared.notices, k) == Unassignments(w.shared.notices, k)
  {
    var more := w'.shared.notices[|w.shared.notices|..];
    assert w'.shared.notices == w.shared.notices + more;
    CountsAppend(w.shared.notices, more, k);
    CountsOther(more, k);
  }

  lemma SteadyCore(h: Escrow.Hashes, w: World, w': World, id: Id)
    requires Core(h, w) && Steady(w, w', id)
    ensures Core(h, w')
    ensures forall k | k in w.shared.tasks && k != id :: w'.shared.tasks[k] == w.shared.tasks[k]
  {
    hide EscrowSafety.Inv;
    hide Pendings;
    hide Assignments;
    hide Unassignments;
    assert TaskShape(w, id);
    forall j | j in w'.shared.jobs ensures JobKnown(w', j) {
      assert JobKnown(w, j);
    }
    forall k | k in w'.shared.tasks ensures TaskShape(w', k) {
      if k != id {
        assert TaskShape(w, k);
        OnlyAboutCounts(w, w', id, k);
      }
    }
    forall k | k !in w'.shared.tasks ensures Untold(w', k) {
      assert Untold(w, k);
      OnlyAboutCounts(w, w', id, k);
    }
  }

  lemma SteadyOk(h: Escrow.Hashes, w: World, w': World, id: Id)
    requires WorldOk(h, w) && Steady(w, w', id)
    requires w'.shared.tasks[id].nbFailures <= w.shared.jobs[w.shared.tasks[id].jobId].maxFailures
    ensures WorldOk(h, w')
  {
    hide EscrowSafety.Inv;
    SteadyCore(h, w, w', id);
    forall k | k in w'.shared.tasks ensures TaskShape(w', k) && CountOk(w', k) {
      assert TaskShape(w, k) && CountOk(w, k);
    }
  }

  /** The last two changes of most proposals. */
  lemma AddManagerSteady(env: Env, w: World, id: Id, manager: Address)
    requires Open(w, id) && Distinct(Subs(w, id))
    ensures var r := Apply(env, w, id, manager, AddManager);
            && r.Done? && Steady(w, r.world, id)
            && r.world.shared.tasks[id] == w.shared.tasks[id].(managers := w.shared.tasks[id].managers + [manager])
  {
    ApplySteady(env, w, id, manager, AddManager);
  }

  // ---------------------------------------------------------------- new tasks

  lemma CreateCounts(w: World, id: Id, n: nat)
    ensures var w' := Notify(w, id, seq(n, i => Pending));
            && FreeTold(w', id) == FreeTold(w, id) + n && BusyTold(w', id) == BusyTold(w, id)
            && OnlyAbout(w.shared.notices, w'.shared.notices, id)
  {
    var notices: seq<Notice> := seq(n, i => Pending);
    NotifyCounts(w, id, notices);
    var more := Notify(w, id, notices).shared.notices[|w.shared.notices|..];
    assert more == seq(n, i => (id, Pending));
    AllPending(id, n);
  }

  lemma {:induction false} AllPending(id: Id, n: nat)
    ensures var more: seq<(Id, Notice)> := seq(n, i => (id, Pending));
            Pendings(more, id) == n && Assignments(more, id) == 0 && Unassignments(more, id) == 0
  {
    if n > 0 {
      AllPending(id, n - 1);
      var more: seq<(Id, Notice)> := seq(n, i => (id, Pending));
      assert more[..n - 1] == seq(n - 1, i => (id, Pending));
    }
  }

  ghost predicate NewlyKnown(w: World, w': World, id: Id) {
    && id !in w.shared.tasks && Open(w', id) && id in w.ledger.tasks
    && w'.ledger == w.ledger
    && w'.shared.tasks == w.shared.tasks[id := w'.shared.tasks[id]]
    && (var t, j := w'.shared.tasks[id], w.ledger.tasks[id].jobId;
        && t.jobId == j && t.argId == w.ledger.tasks[id].argumentId
        && t.nbFailures == 0 && t.managers == []
        && j in w'.shared.jobs && j in w.ledger.jobs
        && w'.shared.jobs == w.shared.jobs[j := w'.shared.jobs[j]]
        && w'.shared.jobs[j] == (if j in w.shared.jobs then w.shared.jobs[j] else InfoOf(w.ledger.jobs[j]))
        && t.completeness == FreshCompleteness(w'.shared.jobs[j].redundancy)
        && FreeTold(w', id) == FreeTold(w, id) + w'.shared.jobs[j].redundancy
        && BusyTold(w', id) == BusyTold(w, id)
        && OnlyAbout(w.shared.notices, w'.shared.notices, id))
  }

  lemma CreateResult(env: Env, w: World, id: Id, manager: Address, decodable: bool)
    requires HandleNewTask(w, id, decodable).Accept?
    requires id in w.ledger.tasks ==> w.ledger.tasks[id].jobId in w.ledger.jobs
    ensures var change := HandleNewTask(w, id, decodable).changes;
            && |change| == 1 && change[0].Create?
            && Apply(env, w, id, manager, change[0]).Done?
            && NewlyKnown(w, Apply(env, w, id, manager, change[0]).world, id)
  {
    hide Pendings;
    hide Assignments;
    hide Unassignments;
    var c := HandleNewTask(w, id, decodable).changes[0];
    var info := if c.jobId in w.shared.jobs then w.shared.jobs[c.jobId] else c.job.value;
    var w1 := WithTask(w, id, TaskData(c.jobId, c.argId, 0, [], FreshCompleteness(info.redundancy)));
    CreateCounts(w1.(shared := w1.shared.(jobs := w.shared.jobs[c.jobId := info])), id, info.redundancy);
  }

  lemma NewlyKnownOk(h: Escrow.Hashes, w: World, w': World, id: Id)
    requires WorldOk(h, w) && NewlyKnown(w, w', id)
    ensures WorldOk(h, w')
  {
    hide EscrowSafety.Inv;
    hide Pendings;
    hide Assignments;
    hide Unassignments;
    OpenTaskJob(h, w.ledger, id);
    var j := w.ledger.tasks[id].jobId;
    FreshFree(w'.shared.jobs[j].redundancy);
    assert Untold(w, id);
    forall i | i in w'.shared.jobs ensures JobKnown(w', i) {
      if i in w.shared.jobs { assert JobKnown(w, i); }
    }
    forall k | k in w'.shared.tasks ensures TaskShape(w', k) && CountOk(w', k) {
      if k != id {
        assert TaskShape(w, k) && CountOk(w, k);
        OnlyAboutCounts(w, w', id, k);
      }
    }
    forall k | k !in w'.shared.tasks ensures Untold(w', k) {
      assert Untold(w, k);
      OnlyAboutCounts(w, w', id, k);
    }
  }

  // ---------------------------------------------------------------- finished tasks

  lemma FinishedOk(h: Escrow.Hashes, w: World, w': World, id: Id)
    requires Core(h, w) && Open(w, id)
    requires forall k | k in w.shared.tasks && k != id :: TaskShape(w, k) && CountOk(w, k)
    requires id in w'.shared.tasks && !Open(w', id)
    requires w'.shared == w.shared.(tasks := w.shared.tasks[id := w'.shared.tasks[id]])
    requires w'.shared.tasks[id].jobId == w.shared.tasks[id].jobId && w'.shared.tasks[id].argId == w.shared.tasks[id].argId
    requires id in w'.ledger.tasks && OnlyTask(w.ledger, w'.ledger, id, w'.ledger.tasks[id])
    requires EscrowSafety.Inv(h, w'.ledger) && TaskShape(w', id) && CountOk(w', id)
    ensures WorldOk(h, w')
  {
    hide EscrowSafety.Inv;
    hide Pendings;
    hide Assignments;
    hide Unassignments;
    forall i | i in w'.shared.jobs ensures JobKnown(w', i) {
      assert JobKnown(w, i);
    }
    forall k | k in w'.shared.tasks ensures TaskShape(w', k) && CountOk(w', k) {
      if k != id { assert TaskShape(w, k) && CountOk(w, k); }
    }
    forall k | k !in w'.shared.tasks ensures Untold(w', k) {
      assert Untold(w, k);
    }
    assert TaskShape(w, id);
  }

  // ---------------------------------------------------------------- when the oracle stops

  /** More managers than the contract lets the oracle register for the task. */
  ghost predicate TooManyManagers(w: World, id: Id)
    requires id in w.shared.tasks && id in w.ledger.tasks
  {
    |w.shared.tasks[id].managers| + 1 > Bound(w.ledger, id)
  }

  ghost predicate Halts(env: Env, w: World, p: Proposal)
    requires WorldOk(env.h, w)
  {
    p.payment.Some? && p.taskId.Some? && Handle(env, w, p.taskId.value, p.kind).Accept? &&
    var id := p.taskId.value;
    match p.kind
    case Scheduling(offers) =>
      var t := w.shared.tasks[id];
      !NoRepeat(OfferWorkers(t, id, Taken(t, offers)))
    case Completion(selected) =>
      assert TaskShape(w, id);
      || env.me != w.ledger.oracle || TooManyManagers(w, id)
      || selected.value.result.value == [] || Free(Subs(w, id)) > 0
    case Failure(newNb, _) =>
      assert TaskShape(w, id);
      && newNb > w.shared.jobs[w.shared.tasks[id].jobId].maxFailures
      && (env.me != w.ledger.oracle || TooManyManagers(w, id))
    case _ => false
  }

  /** Outcome of a proposal: it stops the oracle exactly when it must, and otherwise leaves a good world. */
  ghost predicate Outcome(env: Env, w: World, p: Proposal)
    requires WorldOk(env.h, w)
  {
    var r := Propose(env, w, p);
    && (r.Stop? <==> Halts(env, w, p))
    && (r.Done? ==> WorldOk(env.h, r.world))
    && EscrowSafety.Inv(env.h, r.world.ledger)
  }

  // ---------------------------------------------------------------- the five kinds of proposals

  ghost predicate Well(p: Proposal) {
    p.payment.Some? && p.taskId.Some?
  }

  lemma ApplyTwo(env: Env, w: World, id: Id, manager: Address, a: StateChange, b: StateChange)
    ensures ApplyAll(env, w, id, manager, [a, b])
            == match Apply(env, w, id, manager, a)
               case Stop(w') => Stop(w')
               case Done(w') => Apply(env, w', id, manager, b)
  {
    hide Apply;
    assert [a, b][..1] == [a] && [a][..0] == [];
    assert ApplyAll(env, w, id, manager, [a]) == Apply(env, w, id, manager, a);
  }

  lemma TaskFacts(h: Escrow.Hashes, w: World, id: Id)
    requires WorldOk(h, w) && id in w.shared.tasks
    ensures TaskShape(w, id) && CountOk(w, id)
  {
    hide EscrowSafety.Inv;
    assert TaskShape(w, id) && CountOk(w, id);
  }

  lemma OpenCounts(h: Escrow.Hashes, w: World, id: Id)
    requires WorldOk(h, w) && Open(w, id)
    ensures w.shared.tasks[id].jobId in w.shared.jobs
    ensures w.shared.tasks[id].nbFailures <= w.shared.jobs[w.shared.tasks[id].jobId].maxFailures
  {
    hide EscrowSafety.Inv;
    assert TaskShape(w, id) && CountOk(w, id);
  }

  lemma DoneOutcome(env: Env, w: World, p: Proposal, w': World)
    requires WorldOk(env.h, w) && Propose(env, w, p) == Done(w') && WorldOk(env.h, w') && !Halts(env, w, p)
    ensures Outcome(env, w, p)
  {
    hide EscrowSafety.Inv;
    hide Halts;
    LedgerOk(env.h, w');
  }

  lemma StopOutcome(env: Env, w: World, p: Proposal)
    requires WorldOk(env.h, w) && Propose(env, w, p).Stop? && Halts(env, w, p)
    requires EscrowSafety.Inv(env.h, Propose(env, w, p).world.ledger)
    ensures Outcome(env, w, p)
  {
    hide Halts;
    hide Propose;
  }

  lemma HaltsAs(env: Env, w: World, p: Proposal)
    requires WorldOk(env.h, w) && Well(p)
    ensures p.kind.NewTask? || p.kind.CheckedRunning? ==> !Halts(env, w, p)
    ensures p.kind.Scheduling? && Handle(env, w, p.taskId.value, p.kind).Accept? ==>
              (Halts(env, w, p)
               <==> !NoRepeat(OfferWorkers(w.shared.tasks[p.taskId.value], p.taskId.value,
                                           Taken(w.shared.tasks[p.taskId.value], p.kind.offers))))
  {
    hide WorldOk;
  }

  lemma NewTaskOutcome(env: Env, w: World, p: Proposal)
    requires WorldOk(env.h, w) && Well(p) && p.kind.NewTask? && Handle(env, w, p.taskId.value, p.kind).Accept?
    ensures Outcome(env, w, p)
  {
    hide EscrowSafety.Inv;
    hide Apply;
    hide Sort;
    hide WorldOk;
    hide Outcome;
    hide Halts;
    hide NewlyKnown;
    hide Steady;
    var id, manager := p.taskId.value, p.payment.value;
    var changes := HandleNewTask(w, id, p.kind.decodable).changes;
    LedgerOk(env.h, w);
    OpenTaskJob(env.h, w.ledger, id);
    CreateResult(env, w, id, manager, p.kind.decodable);
    SortOfSorted(changes + [AddManager]);
    var r := Apply(env, w, id, manager, changes[0]);
    NewlyKnownOk(env.h, w, r.world, id);
    KnownOpen(w, r.world, id);
    TaskFacts(env.h, r.world, id);
    AddManagerSteady(env, r.world, id, manager);
    SteadyOk(env.h, r.world, Apply(env, r.world, id, manager, AddManager).world, id);
    assert changes + [AddManager] == [changes[0], AddManager];
    ApplyTwo(env, w, id, manager, changes[0], AddManager);
    HaltsAs(env, w, p);
    DoneOutcome(env, w, p, Apply(env, r.world, id, manager, AddManager).world);
  }

  lemma KnownOpen(w: World, w': World, id: Id)
    requires NewlyKnown(w, w', id)
    ensures Open(w', id)
  {
  }

  lemma CheckedOutcome(env: Env, w: World, p: Proposal)
    requires WorldOk(env.h, w) && Well(p) && p.kind.CheckedRunning? && Handle(env, w, p.taskId.value, p.kind).Accept?
    ensures Outcome(env, w, p)
  {
    hide EscrowSafety.Inv;
    hide Sort;
    hide WorldOk;
    hide Outcome;
    hide Halts;
    hide FreeTold;
    hide BusyTold;
    hide OnlyAbout;
    var id, manager := p.taskId.value, p.payment.value;
    TaskFacts(env.h, w, id);
    var check := Check(p.kind.worker.value);
    SortOfSorted([check] + [AddManager]);
    ApplySteady(env, w, id, manager, check);
    var w1 := Apply(env, w, id, manager, check).world;
    AddManagerSteady(env, w1, id, manager);
    var w2 := Apply(env, w1, id, manager, AddManager).world;
    SteadyTrans(w, w1, w2, id);
    SteadyOk(env.h, w, w2, id);
    assert [check] + [AddManager] == [check, AddManager];
    ApplyTwo(env, w, id, manager, check, AddManager);
    HaltsAs(env, w, p);
    DoneOutcome(env, w, p, w2);
  }

  lemma SchedulingOutcome(env: Env, w: World, p: Proposal)
    requires WorldOk(env.h, w) && Well(p) && p.kind.Scheduling? && Handle(env, w, p.taskId.value, p.kind).Accept?
    ensures Outcome(env, w, p)
  {
    hide EscrowSafety.Inv;
    hide Sort;
    hide Apply;
    hide WorldOk;
    hide Outcome;
    hide Halts;
    hide FreeTold;
    hide BusyTold;
    hide OnlyAbout;
    var id, manager := p.taskId.value, p.payment.value;
    TaskFacts(env.h, w, id);
    var t := w.shared.tasks[id];
    var taken := Taken(t, p.kind.offers);
    var assigns := AssignAll(t, id, taken);
    SortOfSorted(assigns + [AddManager]);
    ApplyAllAppend(env, w, id, manager, assigns, [AddManager]);
    AssignBatch(env, w, id, manager, t, taken);
    HaltsAs(env, w, p);
    var r := ApplyAll(env, w, id, manager, assigns);
    if r.Done? {
      AddManagerSteady(env, r.world, id, manager);
      var w2 := Apply(env, r.world, id, manager, AddManager).world;
      SteadyTrans(w, r.world, w2, id);
      SteadyOk(env.h, w, w2, id);
      ApplyOne(env, r.world, id, manager, AddManager);
      DoneOutcome(env, w, p, w2);
    } else {
      StoppedLedger(env, w, id, manager, assigns);
      LedgerOk(env.h, w);
      StopOutcome(env, w, p);
    }
  }

  lemma ApplyOne(env: Env, w: World, id: Id, manager: Address, a: StateChange)
    ensures ApplyAll(env, w, id, manager, [a]) == Apply(env, w, id, manager, a)
  {
    hide Apply;
    assert [a][..0] == [];
  }

  /** Only finishing a task calls the contract. */
  lemma {:induction false} StoppedLedger(env: Env, w: World, id: Id, manager: Address, changes: seq<StateChange>)
    requires forall i | 0 <= i < |changes| :: Plain(changes[i])
    ensures ApplyAll(env, w, id, manager, changes).world.ledger == w.ledger
  {
    if changes != [] {
      StoppedLedger(env, w, id, manager, changes[..|changes| - 1]);
    }
  }

  lemma CompletionOutcome(env: Env, w: World, p: Proposal)
    requires WorldOk(env.h, w) && Well(p) && p.kind.Completion? && Handle(env, w, p.taskId.value, p.kind).Accept?
    ensures Outcome(env, w, p)
  {
    hide EscrowSafety.Inv;
    hide Sort;
    hide Apply;
    var id, manager, result := p.taskId.value, p.payment.value, p.kind.selected.value.result.value;
    assert TaskShape(w, id) && CountOk(w, id);
    SortCompletion(result);
    ApplyTwo(env, w, id, manager, AddManager, Complete(result));
    AddManagerSteady(env, w, id, manager);
    var w1 := Apply(env, w, id, manager, AddManager).world;
    SteadyOk(env.h, w, w1, id);
    CompleteOpen(env, w1, id, manager, result);
    FreeBounds(Subs(w, id));
  }

  lemma CompleteOpen(env: Env, w: World, id: Id, manager: Address, result: Bytes)
    requires WorldOk(env.h, w) && Open(w, id) && id in w.ledger.tasks && w.shared.tasks[id].managers != []
    ensures var r := Apply(env, w, id, manager, Complete(result));
            && (r.Done? <==> env.me == w.ledger.oracle && |w.shared.tasks[id].managers| <= Bound(w.ledger, id)
                             && result != [] && Free(Subs(w, id)) == 0)
            && (r.Done? ==> WorldOk(env.h, r.world))
            && EscrowSafety.Inv(env.h, r.world.ledger)
  {
    hide EscrowSafety.Inv;
    hide FinishCompleted;
    assert TaskShape(w, id) && CountOk(w, id);
    var t := w.shared.tasks[id];
    var pays := Payments(Subs(w, id));
    PaymentsCount(Subs(w, id));
    OpenTaskJob(env.h, w.ledger, id);
    assert JobKnown(w, t.jobId);
    var r := Apply(env, w, id, manager, Complete(result));
    if env.me == w.ledger.oracle {
      CompleteIff(env, w.ledger, id, t.managers, result, pays);
      if r.Done? { FinishedOk(env.h, w, r.world, id); }
    } else {
      NotOracle(env, w.ledger, id, t.managers, result, pays, DefiniteError.TimedOut);
    }
  }

  lemma NotOracle(env: Env, l: Escrow.Ledger, id: Id, managers: seq<Address>, result: Bytes, pays: seq<PaymentInfo>,
                  reason: DefiniteError)
    requires env.me != l.oracle
    ensures FinishCompleted(env, l, id, managers, result, pays) == ChainResult(false, l)
    ensures FinishFailed(env, l, id, managers, reason) == ChainResult(false, l)
  {
  }

  // ---------------------------------------------------------------- failures

  /** A failure that goes beyond what the job allows has a reason the contract records, and releases everybody. */
  lemma BlameFits(t: TaskData, max: uint64, id: Id, newNb: uint64, kind: FailureKind)
    requires t.nbFailures <= max && BlameOf(t, max, id, newNb, kind).Some? && BlameOf(t, max, id, newNb, kind).value.countFits
    ensures var blame := BlameOf(t, max, id, newNb, kind).value;
            newNb > max ==>
              && blame.reason.Some? && ToContract(blame.reason.value).Some?
              && (blame.worker.None? || t.nbFailures >= max)
  {
  }

  /** Those released are distinct workers of the task; with nobody to blame, or no failure left, all of them. */
  lemma ReleasedFacts(w: World, id: Id, max: uint64, worker: Option<Option<PeerId>>)
    requires id in w.shared.tasks && Released(w.shared.tasks[id], max, worker).Some?
    requires Open(w, id) ==> Distinct(Subs(w, id))
    ensures var t, workers := w.shared.tasks[id], Released(w.shared.tasks[id], max, worker).value;
            && Open(w, id) && NoRepeat(workers)
            && (forall i | 0 <= i < |workers| :: Assigns(w, id, workers[i]))
            && (worker.None? || t.nbFailures >= max ==> |workers| == |Subs(w, id)| - Free(Subs(w, id)))
  {
    hide FindWorker;
    var subs := Subs(w, id);
    WorkersOfAll(subs);
    forall i | 0 <= i < |WorkersOf(subs)| ensures Assigns(w, id, WorkersOf(subs)[i]) {
      assert WorkersOf(subs)[i] in WorkersOf(subs);
    }
  }

  /** The announced count decides: within the job's allowance the task goes on, beyond it everything is released. */
  lemma FailureFacts(env: Env, w: World, id: Id, newNb: uint64, kind: FailureKind)
    requires WorldOk(env.h, w) && id in w.shared.tasks
    ensures var t := w.shared.tasks[id];
            var v := HandleFailure(w, id, newNb, kind);
            && !v.Panic?
            && (v.Accept? ==>
                  && Open(w, id) && t.jobId in w.shared.jobs
                  && var max := w.shared.jobs[t.jobId].maxFailures;
                     var blame := BlameOf(t, max, id, newNb, kind);
                     && blame.Some? && Released(t, max, blame.value.worker).Some?
                     && var workers := Released(t, max, blame.value.worker).value;
                        && NoRepeat(workers)
                        && (forall i | 0 <= i < |workers| :: Assigns(w, id, workers[i]))
                        && (newNb > max ==> |workers| == |Subs(w, id)| - Free(Subs(w, id)))
                        && (newNb > max ==> blame.value.reason.Some? && ToContract(blame.value.reason.value).Some?)
                        && v.changes == [SetNbFailures(newNb)] + UnassignAll(workers)
                                        + (if newNb > max then [Fail(blame.value.reason.value)] else []))
  {
    hide WorldOk;
    hide BlameOf;
    hide Released;
    hide FreeTold;
    hide BusyTold;
    hide NoRepeat;
    TaskFacts(env.h, w, id);
    var t := w.shared.tasks[id];
    var max := w.shared.jobs[t.jobId].maxFailures;
    var blame := BlameOf(t, max, id, newNb, kind);
    if blame.Some? && blame.value.countFits && Released(t, max, blame.value.worker).Some? {
      ReleasedFacts(w, id, max, blame.value.worker);
      BlameFits(t, max, id, newNb, kind);
      var changes := [SetNbFailures(newNb)] + UnassignAll(Released(t, max, blame.value.worker).value);
      assert changes + [] == changes;
    }
  }

  lemma FailureOutcome(env: Env, w: World, p: Proposal)
    requires WorldOk(env.h, w) && Well(p) && p.kind.Failure? && Handle(env, w, p.taskId.value, p.kind).Accept?
    ensures Outcome(env, w, p)
  {
    hide EscrowSafety.Inv;
    hide Sort;
    hide Apply;
    hide HandleFailure;
    hide BlameOf;
    hide WorldOk;
    hide Outcome;
    hide Halts;
    hide FreeTold;
    hide BusyTold;
    hide OnlyAbout;
    var id, manager, newNb := p.taskId.value, p.payment.value, p.kind.newNbFailures;
    HandledTask(w, id, newNb, p.kind.kind);
    FailureFacts(env, w, id, newNb, p.kind.kind);
    TaskFacts(env.h, w, id);
    var t := w.shared.tasks[id];
    var max := w.shared.jobs[t.jobId].maxFailures;
    var blame := BlameOf(t, max, id, newNb, p.kind.kind).value;
    var workers := Released(t, max, blame.worker).value;
    var end := if newNb > max then [Fail(blame.reason.value)] else [];
    SortFailure(newNb, workers, end);
    ApplyAllAppend(env, w, id, manager, UnassignAll(workers) + [AddManager, SetNbFailures(newNb)], end);
    ReleaseAndCount(env, w, id, manager, workers, newNb);
    var w3 := ApplyAll(env, w, id, manager, UnassignAll(workers) + [AddManager, SetNbFailures(newNb)]).world;
    HaltsFailure(env, w, p);
    if newNb > max {
      ApplyOne(env, w3, id, manager, Fail(blame.reason.value));
      EndFails(env, w, w3, id, manager, blame.reason.value);
      var r := Apply(env, w3, id, manager, Fail(blame.reason.value));
      if r.Done? { DoneOutcome(env, w, p, r.world); } else { StopOutcome(env, w, p); }
    } else {
      SteadyOk(env.h, w, w3, id);
      assert ApplyAll(env, w3, id, manager, end) == Done(w3);
      DoneOutcome(env, w, p, w3);
    }
  }

  lemma HaltsFailure(env: Env, w: World, p: Proposal)
    requires WorldOk(env.h, w) && Well(p) && p.kind.Failure? && Handle(env, w, p.taskId.value, p.kind).Accept?
    requires Open(w, p.taskId.value) && w.shared.tasks[p.taskId.value].jobId in w.shared.jobs
    requires p.taskId.value in w.ledger.tasks
    ensures Halts(env, w, p)
            <==> p.kind.newNbFailures > w.shared.jobs[w.shared.tasks[p.taskId.value].jobId].maxFailures
                 && (env.me != w.ledger.oracle || TooManyManagers(w, p.taskId.value))
  {
    hide WorldOk;
    hide HandleFailure;
  }

  /** The end of a failure beyond the job's allowance, once every replica is released. */
  lemma EndFails(env: Env, w: World, w3: World, id: Id, manager: Address, reason: DefiniteError)
    requires WorldOk(env.h, w) && Steady(w, w3, id) && id in w.ledger.tasks
    requires w3.shared.tasks[id].managers == w.shared.tasks[id].managers + [manager]
    requires w.shared.tasks[id].jobId in w.shared.jobs
    requires w3.shared.tasks[id].nbFailures > w.shared.jobs[w.shared.tasks[id].jobId].maxFailures
    requires ToContract(reason).Some? && Free(Subs(w3, id)) == |Subs(w3, id)|
    ensures var r := Apply(env, w3, id, manager, Fail(reason));
            && (r.Done? <==> env.me == w.ledger.oracle && !TooManyManagers(w, id))
            && (r.Done? ==> WorldOk(env.h, r.world))
            && EscrowSafety.Inv(env.h, r.world.ledger)
  {
    hide EscrowSafety.Inv;
    hide Apply;
    hide FreeTold;
    hide BusyTold;
    SteadyCore(env.h, w, w3, id);
    forall k | k in w3.shared.tasks && k != id ensures TaskShape(w3, k) && CountOk(w3, k) {
      assert TaskShape(w, k) && CountOk(w, k);
      assert TaskShape(w3, k);
    }
    FailOpen(env, w3, id, manager, reason);
  }

  lemma HandledTask(w: World, id: Id, newNb: uint64, kind: FailureKind)
    requires HandleFailure(w, id, newNb, kind).Accept?
    ensures id in w.shared.tasks
  {
  }

  /** Releases, the new manager and the new count always succeed. */
  lemma ReleaseAndCount(env: Env, w: World, id: Id, manager: Address, workers: seq<PeerId>, nb: uint64)
    requires Open(w, id) && Distinct(Subs(w, id)) && NoRepeat(workers)
    requires forall i | 0 <= i < |workers| :: Assigns(w, id, workers[i])
    ensures var r := ApplyAll(env, w, id, manager, UnassignAll(workers) + [AddManager, SetNbFailures(nb)]);
            && r.Done? && Steady(w, r.world, id)
            && Free(Subs(r.world, id)) == Free(Subs(w, id)) + |workers|
            && r.world.shared.tasks[id] == w.shared.tasks[id].(completeness := r.world.shared.tasks[id].completeness,
                 nbFailures := nb, managers := w.shared.tasks[id].managers + [manager])
  {
    hide Apply;
    UnassignBatch(env, w, id, manager, workers);
    ApplyAllAppend(env, w, id, manager, UnassignAll(workers), [AddManager, SetNbFailures(nb)]);
    var w1 := ApplyAll(env, w, id, manager, UnassignAll(workers)).world;
    ApplyTwo(env, w1, id, manager, AddManager, SetNbFailures(nb));
    AddManagerSteady(env, w1, id, manager);
    var w2 := Apply(env, w1, id, manager, AddManager).world;
    SetNbSteady(env, w2, id, manager, nb);
    var w3 := Apply(env, w2, id, manager, SetNbFailures(nb)).world;
    SteadyTrans(w, w1, w2, id);
    SteadyTrans(w, w2, w3, id);
  }

  lemma SetNbSteady(env: Env, w: World, id: Id, manager: Address, nb: uint64)
    requires Open(w, id) && Distinct(Subs(w, id))
    ensures var r := Apply(env, w, id, manager, SetNbFailures(nb));
            && r.Done? && Steady(w, r.world, id)
            && r.world.shared.tasks[id] == w.shared.tasks[id].(nbFailures := nb)
  {
    ApplySteady(env, w, id, manager, SetNbFailures(nb));
  }

  lemma FailOpen(env: Env, w: World, id: Id, manager: Address, reason: DefiniteError)
    requires Core(env.h, w) && Open(w, id) && id in w.ledger.tasks && w.shared.tasks[id].managers != []
    requires forall k | k in w.shared.tasks && k != id :: TaskShape(w, k) && CountOk(w, k)
    requires w.shared.tasks[id].jobId in w.shared.jobs
    requires w.shared.tasks[id].nbFailures > w.shared.jobs[w.shared.tasks[id].jobId].maxFailures
    requires ToContract(reason).Some? && Free(Subs(w, id)) == |Subs(w, id)|
    ensures var r := Apply(env, w, id, manager, Fail(reason));
            && (r.Done? <==> env.me == w.ledger.oracle && |w.shared.tasks[id].managers| <= Bound(w.ledger, id))
            && (r.Done? ==> WorldOk(env.h, r.world))
            && EscrowSafety.Inv(env.h, r.world.ledger)
  {
    hide EscrowSafety.Inv;
    hide FinishFailed;
    assert TaskShape(w, id);
    var t := w.shared.tasks[id];
    var r := Apply(env, w, id, manager, Fail(reason));
    if env.me == w.ledger.oracle {
      FailIff(env, w.ledger, id, t.managers, reason);
      if r.Done? { FinishedOk(env.h, w, r.world, id); }
    } else {
      NotOracle(env, w.ledger, id, t.managers, [], [], reason);
    }
  }

  // ---------------------------------------------------------------- every proposal

  /**
   From every good world, a proposal stops the oracle exactly when `Halts` says, and otherwise leads
   to a good world. In particular the missing-reason panic cannot happen.
   */
  lemma ProposeOutcome(env: Env, w: World, p: Proposal)
    requires WorldOk(env.h, w)
    ensures Outcome(env, w, p)
  {
    hide EscrowSafety.Inv;
    hide Core;
    hide HandleFailure;
    hide Apply;
    hide Sort;
    if Well(p) {
      var v := Handle(env, w, p.taskId.value, p.kind);
      if p.kind.Failure? {
        NoPanic(env, w, p.taskId.value, p.kind.newNbFailures, p.kind.kind);
      }
      LedgerOk(env.h, w);
      if v.Accept? {
        match p.kind
        case NewTask(_) => NewTaskOutcome(env, w, p);
        case CheckedRunning(_) => CheckedOutcome(env, w, p);
        case Scheduling(_) => SchedulingOutcome(env, w, p);
        case Completion(_) => CompletionOutcome(env, w, p);
        case Failure(_, _) => FailureOutcome(env, w, p);
        case NoKind =>
      }
    } else {
      LedgerOk(env.h, w);
    }
  }

  lemma LedgerOk(h: Escrow.Hashes, w: World)
    requires WorldOk(h, w)
    ensures EscrowSafety.Inv(h, w.ledger)
  {
  }

  /** "`reason` is `None` but the `new_nb_failures` is too high" is unreachable. */
  lemma NoPanic(env: Env, w: World, id: Id, newNb: uint64, kind: FailureKind)
    requires WorldOk(env.h, w)
    ensures !HandleFailure(w, id, newNb, kind).Panic?
  {
    hide EscrowSafety.Inv;
    hide BlameOf;
    if id in w.shared.tasks { FailureFacts(env, w, id, newNb, kind); }
  }
}

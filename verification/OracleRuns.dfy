/** Runs of the contract's users, the managers' proposals and the oracle together. */
module OracleRuns {
  import opened Base
  import opened SharedState
  import opened Oracle
  import opened OracleChanges
  import opened OracleChain
  import opened OracleSafety
  import Escrow
  import EscrowSafety
  import EscrowRuns

  /** A step of the whole system; the oracle's own calls to the contract happen inside proposals. */
  datatype SystemStep = Transact(tx: Escrow.Transaction) | Proposed(proposal: Proposal, now: int)

  function StepWorld(h: Escrow.Hashes, me: Address, w: World, step: SystemStep): Applied {
    match step
    case Transact(tx) => Done(w.(ledger := Escrow.Step(h, w.ledger, tx)))
    case Proposed(p, now) => Propose(Env(h, me, now), w, p)
  }

  function RunWorld(h: Escrow.Hashes, me: Address, w: World, steps: seq<SystemStep>): Applied {
    if steps == [] then Done(w)
    else match RunWorld(h, me, w, steps[..|steps| - 1])
      case Stop(w') => Stop(w')
      case Done(w') => StepWorld(h, me, w', steps[|steps| - 1])
  }

  function Start(oracle: Address): World {
    World(Escrow.Deployed(oracle), Shared(map[], map[], []))
  }

  /** The account of the oracle finishes tasks through the oracle node only. */
  predicate NodeOnly(oracle: Address, step: SystemStep) {
    step.Transact? ==>
      step.tx.sender != oracle
      || !(step.tx.call.PushManager? || step.tx.call.SetDefinitelyFailed? || step.tx.call.SetCompleted?)
  }

  lemma TransactOk(h: Escrow.Hashes, w: World, tx: Escrow.Transaction)
    requires WorldOk(h, w) && !IsOracleCall(w.ledger, tx)
    ensures WorldOk(h, w.(ledger := Escrow.Step(h, w.ledger, tx)))
    ensures Escrow.Step(h, w.ledger, tx).oracle == w.ledger.oracle
  {
    hide EscrowSafety.Inv;
    hide Escrow.Step;
    hide Pendings;
    hide Assignments;
    hide Unassignments;
    var w' := w.(ledger := Escrow.Step(h, w.ledger, tx));
    OtherTransactions(h, w.ledger, tx);
    EscrowRuns.StepKeeps(h, w.ledger, tx);
    forall j | j in w'.shared.jobs ensures JobKnown(w', j) {
      assert JobKnown(w, j);
    }
    forall id | id in w'.shared.tasks ensures TaskShape(w', id) && CountOk(w', id) {
      assert TaskShape(w, id) && CountOk(w, id);
    }
    forall id | id !in w'.shared.tasks ensures Untold(w', id) {
      assert Untold(w, id);
    }
    NewTasksOpen(h, w.ledger, tx);
  }

  /** A transaction of anybody else creates tasks only as incomplete. */
  lemma NewTasksOpen(h: Escrow.Hashes, l: Escrow.Ledger, tx: Escrow.Transaction)
    requires EscrowSafety.Inv(h, l) && !IsOracleCall(l, tx)
    ensures forall id | id in Escrow.Step(h, l, tx).tasks && id !in l.tasks ::
              Escrow.Step(h, l, tx).tasks[id].state == Escrow.Incomplete
  {
    hide EscrowSafety.Inv;
    hide Escrow.FreeNonce;
    match tx.call
    case Lock(id) =>
      if Escrow.ExecLock(h, l, tx.sender, id).Some? {
        EscrowSafety.LockTasksAdds(h, l.tasks, id, |l.jobs[id].arguments|);
        var l' := Escrow.Step(h, l, tx);
        forall t | t in l'.tasks && t !in l.tasks ensures l'.tasks[t].state == Escrow.Incomplete {
          var i :| 0 <= i < |l.jobs[id].arguments| && t == Escrow.TaskId(h, id, i);
        }
      }
    case _ =>
  }

  /** As long as no proposal has stopped the oracle, shared state and contract agree. */
  lemma {:induction false} RunWorldOk(h: Escrow.Hashes, oracle: Address, steps: seq<SystemStep>)
    requires forall i | 0 <= i < |steps| :: NodeOnly(oracle, steps[i])
    ensures var r := RunWorld(h, oracle, Start(oracle), steps);
            && (r.Done? ==> WorldOk(h, r.world) && r.world.ledger.oracle == oracle)
            && EscrowSafety.Inv(h, r.world.ledger)
  {
    hide EscrowSafety.Inv;
    hide WorldOk;
    if steps == [] {
      StartOk(h, oracle);
    } else {
      var n := |steps| - 1;
      RunWorldOk(h, oracle, steps[..n]);
      var before := RunWorld(h, oracle, Start(oracle), steps[..n]);
      if before.Done? {
        match steps[n]
        case Transact(tx) =>
          assert NodeOnly(oracle, steps[n]);
          TransactOk(h, before.world, tx);
          LedgerOk(h, before.world.(ledger := Escrow.Step(h, before.world.ledger, tx)));
        case Proposed(p, now) =>
          ProposeOutcome(Env(h, oracle, now), before.world, p);
          OracleStays(Env(h, oracle, now), before.world, p);
      }
    }
  }

  lemma StartOk(h: Escrow.Hashes, oracle: Address)
    ensures WorldOk(h, Start(oracle)) && EscrowSafety.Inv(h, Start(oracle).ledger)
  {
    EscrowRuns.DeployedInv(h, oracle);
  }

  // ---------------------------------------------------------------- what proposals leave alone

  lemma {:induction false} PushAllOracle(env: Env, l: Escrow.Ledger, id: Id, managers: seq<Address>)
    ensures PushAll(env, l, id, managers).ledger.oracle == l.oracle
    decreases |managers|
  {
    if managers != [] {
      var first := Call(env, l, Escrow.PushManager(id, managers[0]));
      if first.ok { PushAllOracle(env, first.ledger, id, managers[1..]); }
    }
  }

  lemma CallOracle(env: Env, l: Escrow.Ledger, call: Escrow.Call)
    ensures Call(env, l, call).ledger.oracle == l.oracle
  {
    hide Escrow.FreeNonce;
    hide Escrow.LockTasks;
    hide Escrow.DraftReady;
    hide Escrow.MaxPrice;
    hide Escrow.PricePerTask;
    hide Escrow.CreditAll;
    hide Escrow.CreditLog;
    hide Escrow.AllDone;
    hide U256;
  }

  lemma FinishOracle(env: Env, l: Escrow.Ledger, id: Id, managers: seq<Address>, result: Bytes, pays: seq<PaymentInfo>,
                     reason: DefiniteError)
    ensures FinishCompleted(env, l, id, managers, result, pays).ledger.oracle == l.oracle
    ensures FinishFailed(env, l, id, managers, reason).ledger.oracle == l.oracle
  {
    hide Call;
    hide PushAll;
    PushAllOracle(env, l, id, managers);
    var r := SetManagers(env, l, id, managers);
    CallOracle(env, r.ledger, CompletionCall(id, result, pays));
    if ToContract(reason).Some? { CallOracle(env, r.ledger, Escrow.SetDefinitelyFailed(id, ToContract(reason).value)); }
  }

  lemma ApplyOracle(env: Env, w: World, id: Id, manager: Address, change: StateChange)
    ensures Apply(env, w, id, manager, change).world.ledger.oracle == w.ledger.oracle
  {
    hide FinishCompleted;
    hide FinishFailed;
    hide ApplyCreate;
    hide FindWorker;
    hide Payments;
    if change.Create? {
      CreateOracle(w, id, change.jobId, change.argId, change.job);
    } else if Open(w, id) {
      var t := w.shared.tasks[id];
      FinishOracle(env, w.ledger, id, t.managers, if change.Complete? then change.result else [],
                   Payments(t.completeness.substates), if change.Fail? then change.reason else DefiniteError.Aborted);
    }
  }

  lemma CreateOracle(w: World, id: Id, jobId: Id, argId: nat, job: Option<JobInfo>)
    ensures ApplyCreate(w, id, jobId, argId, job).world.ledger == w.ledger
  {
  }

  lemma {:induction false} ApplyAllOracle(env: Env, w: World, id: Id, manager: Address, changes: seq<StateChange>)
    ensures ApplyAll(env, w, id, manager, changes).world.ledger.oracle == w.ledger.oracle
  {
    if changes != [] {
      ApplyAllOracle(env, w, id, manager, changes[..|changes| - 1]);
      var r := ApplyAll(env, w, id, manager, changes[..|changes| - 1]);
      ApplyOracle(env, r.world, id, manager, changes[|changes| - 1]);
    }
  }

  lemma OracleStays(env: Env, w: World, p: Proposal)
    ensures Propose(env, w, p).world.ledger.oracle == w.ledger.oracle
  {
    hide Apply;
    hide Handle;
    hide Sort;
    if p.payment.Some? && p.taskId.Some? {
      match Handle(env, w, p.taskId.value, p.kind)
      case Accept(changes) =>
        ApplyAllOracle(env, w, p.taskId.value, p.payment.value, Sort(changes + [AddManager]));
      case _ =>
    }
  }

  /** Changes touch their own task only, and its failure count only through `SetNbFailures`. */
  lemma {:induction false} ApplyAllFrame(env: Env, w: World, id: Id, manager: Address, changes: seq<StateChange>, nb: uint64)
    requires forall i | 0 <= i < |changes| :: !changes[i].Create? && (changes[i].SetNbFailures? ==> changes[i].nb == nb)
    ensures var w' := ApplyAll(env, w, id, manager, changes).world;
            && (forall k | k in w.shared.tasks :: k in w'.shared.tasks)
            && (forall k | k in w.shared.tasks && k != id :: w'.shared.tasks[k] == w.shared.tasks[k])
            && (id in w.shared.tasks ==>
                  w'.shared.tasks[id].nbFailures == w.shared.tasks[id].nbFailures || w'.shared.tasks[id].nbFailures == nb)
  {
    if changes != [] {
      var n := |changes| - 1;
      ApplyAllFrame(env, w, id, manager, changes[..n], nb);
      var r := ApplyAll(env, w, id, manager, changes[..n]);
      ApplyFrame(env, r.world, id, manager, changes[n]);
    }
  }

  lemma ApplyFrame(env: Env, w: World, id: Id, manager: Address, change: StateChange)
    requires !change.Create?
    ensures var w' := Apply(env, w, id, manager, change).world;
            && (forall k | k in w.shared.tasks :: k in w'.shared.tasks)
            && (forall k | k in w.shared.tasks && k != id :: w'.shared.tasks[k] == w.shared.tasks[k])
            && (id in w.shared.tasks ==>
                  w'.shared.tasks[id].nbFailures == w.shared.tasks[id].nbFailures
                  || (change.SetNbFailures? && w'.shared.tasks[id].nbFailures == change.nb))
  {
    hide FinishCompleted;
    hide FinishFailed;
  }

  lemma SortedFrom(changes: seq<StateChange>, i: nat)
    requires i < |Sort(changes)|
    ensures Sort(changes)[i] in changes
  {
    SortSorts(changes);
    assert Sort(changes)[i] in multiset(Sort(changes));
  }

  /** The failures that count one more. */
  predicate PlusOne(kind: FailureKind) {
    kind.IncorrectResults?
    || (kind.WorkerFailed? && kind.message.Some? && kind.message.value.error.Some?
        && !kind.message.value.error.value.Aborted?)
  }

  /** The count an accepted failure announces. */
  lemma CountFits(w: World, id: Id, newNb: uint64, kind: FailureKind)
    requires HandleFailure(w, id, newNb, kind).Accept?
    ensures id in w.shared.tasks && w.shared.tasks[id].jobId in w.shared.jobs
    ensures var t := w.shared.tasks[id];
            newNb == if PlusOne(kind) then U64(t.nbFailures + 1) else if kind.IncorrectSpecs? then newNb else t.nbFailures
    ensures kind.IncorrectSpecs? ==> newNb > w.shared.jobs[w.shared.tasks[id].jobId].maxFailures
  {
  }

  /** An accepted failure sets the count it announces. */
  lemma FailureSets(env: Env, w: World, p: Proposal)
    requires WorldOk(env.h, w) && Well(p) && p.kind.Failure? && Handle(env, w, p.taskId.value, p.kind).Accept?
    requires Propose(env, w, p).Done?
    ensures Open(w, p.taskId.value) && p.taskId.value in Propose(env, w, p).world.shared.tasks
    ensures Propose(env, w, p).world.shared.tasks[p.taskId.value].nbFailures == p.kind.newNbFailures
  {
    hide EscrowSafety.Inv;
    hide Sort;
    hide Apply;
    hide HandleFailure;
    hide BlameOf;
    var id, manager, newNb := p.taskId.value, p.payment.value, p.kind.newNbFailures;
    HandledTask(w, id, newNb, p.kind.kind);
    FailureFacts(env, w, id, newNb, p.kind.kind);
    assert TaskShape(w, id);
    var t := w.shared.tasks[id];
    var max := w.shared.jobs[t.jobId].maxFailures;
    var blame := BlameOf(t, max, id, newNb, p.kind.kind).value;
    var workers := Released(t, max, blame.worker).value;
    var end := if newNb > max then [Fail(blame.reason.value)] else [];
    SortFailure(newNb, workers, end);
    ApplyAllAppend(env, w, id, manager, UnassignAll(workers) + [AddManager, SetNbFailures(newNb)], end);
    ReleaseAndCount(env, w, id, manager, workers, newNb);
    var w3 := ApplyAll(env, w, id, manager, UnassignAll(workers) + [AddManager, SetNbFailures(newNb)]).world;
    if newNb > max {
      ApplyOne(env, w3, id, manager, Fail(blame.reason.value));
      ApplyFrame(env, w3, id, manager, Fail(blame.reason.value));
    }
  }

  /** The one way to lower a failure count: one more failure of a task that has failed 2^64 - 1 times. */
  ghost predicate Wraps(env: Env, w: World, p: Proposal, id: Id)
    requires id in w.shared.tasks
  {
    && Well(p) && p.taskId.value == id && p.kind.Failure? && PlusOne(p.kind.kind)
    && Handle(env, w, id, p.kind).Accept? && w.shared.tasks[id].nbFailures == TWO64 - 1
  }

  /**
   A proposal never changes a finished task. It lowers a failure count exactly when it wraps it: then
   the count comes back to 0, and the job allows 2^64 - 1 failures.
   */
  lemma FinalAndMonotone(env: Env, w: World, p: Proposal, id: Id)
    requires WorldOk(env.h, w) && id in w.shared.tasks && Propose(env, w, p).Done?
    ensures var w' := Propose(env, w, p).world;
            && id in w'.shared.tasks
            && (!Open(w, id) ==> w'.shared.tasks[id] == w.shared.tasks[id])
            && (w'.shared.tasks[id].nbFailures < w.shared.tasks[id].nbFailures <==> Wraps(env, w, p, id))
            && (Wraps(env, w, p, id) ==>
                  && w'.shared.tasks[id].nbFailures == 0
                  && w.shared.tasks[id].jobId in w.shared.jobs
                  && w.shared.jobs[w.shared.tasks[id].jobId].maxFailures == TWO64 - 1)
  {
    hide EscrowSafety.Inv;
    hide Core;
    hide ApplyAll;
    hide Sort;
    hide HandleFailure;
    hide PlusOne;
    if Well(p) && Handle(env, w, p.taskId.value, p.kind).Accept? {
      var own, manager := p.taskId.value, p.payment.value;
      var changes := Handle(env, w, own, p.kind).changes;
      if p.kind.NewTask? {
        NewTaskFrame(env, w, own, manager, p.kind.decodable, id);
      } else {
        AcceptedFrame(env, w, own, p.kind);
        var nb := if p.kind.Failure? then p.kind.newNbFailures else 0;
        forall i | 0 <= i < |Sort(changes + [AddManager])|
          ensures var c := Sort(changes + [AddManager])[i];
                  c in changes + [AddManager] && !c.Create? && (c.SetNbFailures? ==> c.nb == nb)
        {
          SortedFrom(changes + [AddManager], i);
        }
        ApplyAllFrame(env, w, own, manager, Sort(changes + [AddManager]), nb);
        if own == id && p.kind.Failure? {
          FailureSets(env, w, p);
          CountFits(w, id, p.kind.newNbFailures, p.kind.kind);
          OpenCounts(env.h, w, id);
        } else if own == id {
          assert forall c | c in changes + [AddManager] :: c in changes || c == AddManager;
          SameCount(env, w, own, manager, Sort(changes + [AddManager]), changes + [AddManager]);
        }
      }
    }
  }

  /** Over a run: a task once finished is the same record ever after. */
  lemma {:induction false} FinishedForever(h: Escrow.Hashes, oracle: Address, steps: seq<SystemStep>, n: nat, id: Id)
    requires n <= |steps| && forall i | 0 <= i < |steps| :: NodeOnly(oracle, steps[i])
    requires RunWorld(h, oracle, Start(oracle), steps).Done?
    requires var r := RunWorld(h, oracle, Start(oracle), steps[..n]);
             r.Done? ==> id in r.world.shared.tasks && !Open(r.world, id)
    ensures var r, r' := RunWorld(h, oracle, Start(oracle), steps[..n]), RunWorld(h, oracle, Start(oracle), steps);
            && r.Done? && id in r'.world.shared.tasks
            && r'.world.shared.tasks[id] == r.world.shared.tasks[id]
    decreases |steps|
  {
    hide WorldOk;
    hide Propose;
    if n == |steps| {
      assert steps[..n] == steps;
    } else {
      var last := |steps| - 1;
      assert steps[..last][..n] == steps[..n];
      FinishedForever(h, oracle, steps[..last], n, id);
      RunWorldOk(h, oracle, steps[..last]);
      var before := RunWorld(h, oracle, Start(oracle), steps[..last]);
      if steps[last].Proposed? {
        FinalAndMonotone(Env(h, oracle, steps[last].now), before.world, steps[last].proposal, id);
      }
    }
  }

  lemma NewTaskFrame(env: Env, w: World, own: Id, manager: Address, decodable: bool, id: Id)
    requires HandleNewTask(w, own, decodable).Accept? && id in w.shared.tasks
    ensures var w' := ApplyAll(env, w, own, manager, Sort(HandleNewTask(w, own, decodable).changes + [AddManager])).world;
            id in w'.shared.tasks && w'.shared.tasks[id] == w.shared.tasks[id]
  {
    hide Sort;
    hide Apply;
    var c := HandleNewTask(w, own, decodable).changes[0];
    assert HandleNewTask(w, own, decodable).changes + [AddManager] == [c, AddManager];
    SortOfSorted([c, AddManager]);
    ApplyTwo(env, w, own, manager, c, AddManager);
    CreateFrame(env, w, own, manager, c, id);
    var r := Apply(env, w, own, manager, c);
    ApplyFrame(env, r.world, own, manager, AddManager);
  }

  lemma CreateFrame(env: Env, w: World, own: Id, manager: Address, c: StateChange, id: Id)
    requires c.Create? && own !in w.shared.tasks && id in w.shared.tasks
    ensures var w' := Apply(env, w, own, manager, c).world; id in w'.shared.tasks && w'.shared.tasks[id] == w.shared.tasks[id]
  {
  }

  /** An accepted proposal about a known task is about an open one. */
  lemma AcceptedFrame(env: Env, w: World, id: Id, kind: Kind)
    requires WorldOk(env.h, w) && Handle(env, w, id, kind).Accept? && !kind.NewTask?
    ensures Open(w, id)
    ensures forall c | c in Handle(env, w, id, kind).changes ::
              !c.Create? && (c.SetNbFailures? ==> kind.Failure? && c.nb == kind.newNbFailures)
  {
    hide EscrowSafety.Inv;
    if kind.Failure? {
      HandledTask(w, id, kind.newNbFailures, kind.kind);
      FailureFacts(env, w, id, kind.newNbFailures, kind.kind);
      assert TaskShape(w, id) && CountOk(w, id);
    }
  }

  lemma SameCount(env: Env, w: World, id: Id, manager: Address, sorted: seq<StateChange>, changes: seq<StateChange>)
    requires id in w.shared.tasks
    requires forall i | 0 <= i < |sorted| :: sorted[i] in changes
    requires forall c | c in changes :: !c.Create? && !c.SetNbFailures?
    ensures var w' := ApplyAll(env, w, id, manager, sorted).world;
            id in w'.shared.tasks && w'.shared.tasks[id].nbFailures == w.shared.tasks[id].nbFailures
  {
    ApplyAllFrame(env, w, id, manager, sorted, w.shared.tasks[id].nbFailures);
  }

  // ---------------------------------------------------------------- a definite failure tells every worker

  ghost predicate Told(before: seq<(Id, Notice)>, after: seq<(Id, Notice)>, id: Id, worker: PeerId) {
    exists i :: |before| <= i < |after| && after[i].0 == id && after[i].1.UnassignedFrom? && after[i].1.worker == worker
  }

  lemma {:induction false} UnassignBatchTells(env: Env, w: World, id: Id, manager: Address, workers: seq<PeerId>)
    requires Open(w, id) && Distinct(Subs(w, id)) && NoRepeat(workers)
    requires forall i | 0 <= i < |workers| :: Assigns(w, id, workers[i])
    ensures forall p | p in workers ::
              Told(w.shared.notices, ApplyAll(env, w, id, manager, UnassignAll(workers)).world.shared.notices, id, p)
  {
    hide Apply;
    if workers != [] {
      var n := |workers| - 1;
      var front, last := workers[..n], workers[n];
      UnassignBatchTells(env, w, id, manager, front);
      UnassignBatch(env, w, id, manager, front);
      assert UnassignAll(workers)[..n] == UnassignAll(front);
      var w1 := ApplyAll(env, w, id, manager, UnassignAll(front)).world;
      assert Assigns(w, id, workers[n]);
      UnassignOne(env, w1, id, manager, last);
      var r := Apply(env, w1, id, manager, UnassignWorker(last));
      assert ApplyAll(env, w, id, manager, UnassignAll(workers)) == r;
      UnassignTellsOne(env, w1, id, manager, last);
      var a, b, c := w.shared.notices, w1.shared.notices, r.world.shared.notices;
      forall p | p in workers ensures Told(a, c, id, p) {
        if p in front {
          var i :| |a| <= i < |b| && b[i].0 == id && b[i].1.UnassignedFrom? && b[i].1.worker == p;
          assert c[..|b|][i] == b[i];
        } else {
          var i :| |b| <= i < |c| && c[i].0 == id && c[i].1.UnassignedFrom? && c[i].1.worker == last;
          assert p == last;
        }
      }
    }
  }

  lemma UnassignTellsOne(env: Env, w: World, id: Id, manager: Address, worker: PeerId)
    requires Open(w, id) && Assigns(w, id, worker)
    ensures Told(w.shared.notices, Apply(env, w, id, manager, UnassignWorker(worker)).world.shared.notices, id, worker)
  {
    var after := Apply(env, w, id, manager, UnassignWorker(worker)).world.shared.notices;
    assert after[|w.shared.notices|].1.UnassignedFrom?;
  }

  /**
   When a proposal makes a task definitely fail, every worker assigned to it is told to stop in that
   step, and the stored reason is one the contract can record, never `Aborted`.
   */
  lemma FailureTellsAll(env: Env, w: World, p: Proposal, id: Id)
    requires WorldOk(env.h, w) && Open(w, id) && Propose(env, w, p).Done?
    requires id in Propose(env, w, p).world.shared.tasks
             && Propose(env, w, p).world.shared.tasks[id].completeness.DefinetelyFailed?
    ensures var w' := Propose(env, w, p).world;
            && w'.shared.tasks[id].completeness.reason != DefiniteError.Aborted
            && forall worker | Assigns(w, id, worker) :: Told(w.shared.notices, w'.shared.notices, id, worker)
  {
    hide EscrowSafety.Inv;
    hide ApplyAll;
    hide Sort;
    hide HandleFailure;
    ProposeOutcome(env, w, p);
    var w' := Propose(env, w, p).world;
    assert TaskShape(w', id);
    assert Well(p) && Handle(env, w, p.taskId.value, p.kind).Accept?;
    var own := p.taskId.value;
    if own != id {
      OthersStay(env, w, p, id);
      assert false;
    }
    OnlyFailuresFail(env, w, p);
    FailureTells(env, w, p);
  }

  lemma OthersStay(env: Env, w: World, p: Proposal, id: Id)
    requires WorldOk(env.h, w) && id in w.shared.tasks && Well(p) && p.taskId.value != id
    requires Handle(env, w, p.taskId.value, p.kind).Accept? && Propose(env, w, p).Done?
    ensures id in Propose(env, w, p).world.shared.tasks
            && Propose(env, w, p).world.shared.tasks[id] == w.shared.tasks[id]
  {
    hide EscrowSafety.Inv;
    hide Core;
    hide ApplyAll;
    hide Sort;
    hide HandleFailure;
    var own, manager := p.taskId.value, p.payment.value;
    var changes := Handle(env, w, own, p.kind).changes;
    if p.kind.NewTask? {
      NewTaskFrame(env, w, own, manager, p.kind.decodable, id);
    } else {
      AcceptedFrame(env, w, own, p.kind);
      var nb := if p.kind.Failure? then p.kind.newNbFailures else 0;
      forall i | 0 <= i < |Sort(changes + [AddManager])|
        ensures var c := Sort(changes + [AddManager])[i]; !c.Create? && (c.SetNbFailures? ==> c.nb == nb)
      {
        SortedFrom(changes + [AddManager], i);
      }
      ApplyAllFrame(env, w, own, manager, Sort(changes + [AddManager]), nb);
    }
  }

  /** Only a failure beyond the allowance of the job ends a task as definitely failed. */
  lemma OnlyFailuresFail(env: Env, w: World, p: Proposal)
    requires WorldOk(env.h, w) && Well(p) && Open(w, p.taskId.value)
    requires Handle(env, w, p.taskId.value, p.kind).Accept? && Propose(env, w, p).Done?
    requires p.taskId.value in Propose(env, w, p).world.shared.tasks
             && Propose(env, w, p).world.shared.tasks[p.taskId.value].completeness.DefinetelyFailed?
    ensures p.kind.Failure? && w.shared.tasks[p.taskId.value].jobId in w.shared.jobs
            && p.kind.newNbFailures > w.shared.jobs[w.shared.tasks[p.taskId.value].jobId].maxFailures
  {
    hide EscrowSafety.Inv;
    hide ApplyAll;
    hide Sort;
    hide HandleFailure;
    var id, manager := p.taskId.value, p.payment.value;
    assert TaskShape(w, id) && CountOk(w, id);
    ProposeOutcome(env, w, p);
    var w' := Propose(env, w, p).world;
    assert TaskShape(w', id) && CountOk(w', id);
    var changes := Handle(env, w, id, p.kind).changes;
    AcceptedFrame(env, w, id, p.kind);
    var nb := if p.kind.Failure? then p.kind.newNbFailures else w.shared.tasks[id].nbFailures;
    forall i | 0 <= i < |Sort(changes + [AddManager])|
      ensures var c := Sort(changes + [AddManager])[i]; !c.Create? && (c.SetNbFailures? ==> c.nb == nb)
    {
      SortedFrom(changes + [AddManager], i);
    }
    ApplyAllFrame(env, w, id, manager, Sort(changes + [AddManager]), nb);
    SameJob(env, w, id, manager, Sort(changes + [AddManager]));
  }

  lemma {:induction false} SameJob(env: Env, w: World, id: Id, manager: Address, changes: seq<StateChange>)
    requires id in w.shared.tasks && forall i | 0 <= i < |changes| :: !changes[i].Create?
    ensures var w' := ApplyAll(env, w, id, manager, changes).world;
            && id in w'.shared.tasks && w'.shared.tasks[id].jobId == w.shared.tasks[id].jobId
            && w'.shared.jobs == w.shared.jobs
  {
    hide FinishCompleted;
    hide FinishFailed;
    hide Apply;
    if changes != [] {
      SameJob(env, w, id, manager, changes[..|changes| - 1]);
      SameJobOne(env, ApplyAll(env, w, id, manager, changes[..|changes| - 1]).world, id, manager, changes[|changes| - 1]);
    }
  }

  lemma SameJobOne(env: Env, w: World, id: Id, manager: Address, change: StateChange)
    requires id in w.shared.tasks && !change.Create?
    ensures var w' := Apply(env, w, id, manager, change).world;
            && id in w'.shared.tasks && w'.shared.tasks[id].jobId == w.shared.tasks[id].jobId
            && w'.shared.jobs == w.shared.jobs
  {
    hide FinishCompleted;
    hide FinishFailed;
  }

  lemma FailureTells(env: Env, w: World, p: Proposal)
    requires WorldOk(env.h, w) && Well(p) && Open(w, p.taskId.value) && p.kind.Failure?
    requires Handle(env, w, p.taskId.value, p.kind).Accept? && Propose(env, w, p).Done?
    requires w.shared.tasks[p.taskId.value].jobId in w.shared.jobs
             && p.kind.newNbFailures > w.shared.jobs[w.shared.tasks[p.taskId.value].jobId].maxFailures
    ensures forall worker | Assigns(w, p.taskId.value, worker) ::
              Told(w.shared.notices, Propose(env, w, p).world.shared.notices, p.taskId.value, worker)
  {
    hide EscrowSafety.Inv;
    hide Sort;
    hide Apply;
    hide HandleFailure;
    hide BlameOf;
    var id, manager, newNb := p.taskId.value, p.payment.value, p.kind.newNbFailures;
    FailureFacts(env, w, id, newNb, p.kind.kind);
    assert TaskShape(w, id) && CountOk(w, id);
    var t := w.shared.tasks[id];
    var max := w.shared.jobs[t.jobId].maxFailures;
    var blame := BlameOf(t, max, id, newNb, p.kind.kind).value;
    var workers := Released(t, max, blame.worker).value;
    var end := [Fail(blame.reason.value)];
    SortFailure(newNb, workers, end);
    var rest := [AddManager, SetNbFailures(newNb)] + end;
    assert UnassignAll(workers) + [AddManager, SetNbFailures(newNb)] + end == UnassignAll(workers) + rest;
    ApplyAllAppend(env, w, id, manager, UnassignAll(workers), rest);
    UnassignBatch(env, w, id, manager, workers);
    UnassignBatchTells(env, w, id, manager, workers);
    var w1 := ApplyAll(env, w, id, manager, UnassignAll(workers)).world;
    var w' := Propose(env, w, p).world;
    NoticesGrow(env, w1, id, manager, rest);
    forall worker | Assigns(w, id, worker) ensures Told(w.shared.notices, w'.shared.notices, id, worker) {
      AllReleased(w1, id, worker);
      var i :| |w.shared.notices| <= i < |w1.shared.notices| && w1.shared.notices[i].0 == id
               && w1.shared.notices[i].1.UnassignedFrom? && w1.shared.notices[i].1.worker == worker;
      assert w'.shared.notices[..|w1.shared.notices|][i] == w1.shared.notices[i];
    }
  }

  /** With every replica free nobody is assigned. */
  lemma AllReleased(w: World, id: Id, worker: PeerId)
    requires Open(w, id) && Free(Subs(w, id)) == |Subs(w, id)|
    ensures !Assigns(w, id, worker)
  {
    AllFree(Subs(w, id));
  }

  lemma {:induction false} AllFree(subs: seq<Option<Assigned>>)
    requires Free(subs) == |subs|
    ensures forall i | 0 <= i < |subs| :: subs[i].None?
  {
    if subs != [] {
      var n := |subs| - 1;
      FreeBounds(subs[..n]);
      AllFree(subs[..n]);
      assert forall i | 0 <= i < n :: subs[i] == subs[..n][i];
    }
  }

  lemma {:induction false} NoticesGrow(env: Env, w: World, id: Id, manager: Address, changes: seq<StateChange>)
    ensures var after := ApplyAll(env, w, id, manager, changes).world.shared.notices;
            |after| >= |w.shared.notices| && after[..|w.shared.notices|] == w.shared.notices
  {
    hide FinishCompleted;
    hide FinishFailed;
    if changes == [] {
      assert w.shared.notices[..|w.shared.notices|] == w.shared.notices;
    } else {
      NoticesGrow(env, w, id, manager, changes[..|changes| - 1]);
      var w1 := ApplyAll(env, w, id, manager, changes[..|changes| - 1]).world;
      var after := Apply(env, w1, id, manager, changes[|changes| - 1]).world.shared.notices;
      assert after[..|w1.shared.notices|] == w1.shared.notices;
      assert after[..|w.shared.notices|] == after[..|w1.shared.notices|][..|w.shared.notices|];
    }
  }
}

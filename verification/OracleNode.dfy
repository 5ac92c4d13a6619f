/** The oracle node as an object: task records updated in place, and the contract it calls. */
module OracleNode {
  import opened Base
  import opened Oracle
  import SharedState
  import Escrow
  import JobsContract

  class Node {
    const me: Address
    const chain: JobsContract.Jobs
    var tasks: map<Id, SharedState.Task>
    var jobs: map<Id, JobInfo>
    var notices: seq<(Id, Notice)>

    /** No record is shared between two tasks. */
    ghost predicate Valid()
      reads this
    {
      forall i, j | i in tasks && j in tasks && i != j :: tasks[i] != tasks[j]
    }

    function Current(): (w: World)
      reads this, chain, tasks.Values
      ensures w.shared.tasks.Keys == tasks.Keys
    {
      World(chain.State(), Shared(map id | id in tasks :: tasks[id].Data(), jobs, notices))
    }

    function EnvAt(now: int): Env {
      Env(chain.h, me, now)
    }

    constructor (me: Address, chain: JobsContract.Jobs)
      ensures Valid() && this.me == me && this.chain == chain && tasks == map[]
      ensures Current() == World(chain.State(), Shared(map[], map[], []))
    {
      this.me, this.chain := me, chain;
      tasks, jobs, notices := map[], map[], [];
    }

    method SetManagers(id: Id, managers: seq<Address>, ghost now: int) returns (ok: bool)
      modifies chain
      ensures var r := Oracle.SetManagers(EnvAt(now), old(chain.State()), id, managers);
              ok == r.ok && chain.State() == r.ledger
    {
      hide Escrow.Exec;
      if me != chain.oracle || id !in chain.tasks { return false; }
      var i := 0;
      while i < |managers|
        invariant 0 <= i <= |managers|
        invariant PushAll(EnvAt(now), chain.State(), id, managers[i..]) == PushAll(EnvAt(now), old(chain.State()), id, managers)
      {
        assert managers[i..][0] == managers[i] && managers[i..][1..] == managers[i + 1..];
        var pushed := chain.PushManager(me, id, managers[i]);
        if !pushed { return false; }
        i := i + 1;
      }
      ok := true;
    }

    method FinishCompleted(id: Id, managers: seq<Address>, result: Bytes, pays: seq<SharedState.PaymentInfo>, ghost now: int)
      returns (ok: bool)
      modifies chain
      ensures var r := Oracle.FinishCompleted(EnvAt(now), old(chain.State()), id, managers, result, pays);
              ok == r.ok && chain.State() == r.ledger
    {
      hide Escrow.Exec;
      ok := SetManagers(id, managers, now);
      if ok {
        ok := chain.SetCompleted(me, id, result, Addresses(pays), WorkerPrices(pays), NetworkPrices(pays));
      }
    }

    method FinishFailed(id: Id, managers: seq<Address>, reason: SharedState.DefiniteError, ghost now: int) returns (ok: bool)
      modifies chain
      ensures var r := Oracle.FinishFailed(EnvAt(now), old(chain.State()), id, managers, reason);
              ok == r.ok && chain.State() == r.ledger
    {
      hide Escrow.Exec;
      ok := SetManagers(id, managers, now);
      if ok {
        var kind := ToContract(reason);
        if kind.None? { return false; }
        ok := chain.SetDefinitelyFailed(me, id, kind.value);
      }
    }

    method Tell(id: Id, notice: Notice)
      modifies this`notices
      ensures notices == old(notices) + [(id, notice)]
    {
      notices := notices + [(id, notice)];
    }

    method Create(id: Id, jobId: Id, argId: nat, job: Option<JobInfo>) returns (ok: bool)
      requires Valid()
      modifies this
      ensures Valid() && fresh(tasks.Values - old(tasks.Values))
      ensures var r := ApplyCreate(old(Current()), id, jobId, argId, job);
              ok == r.Done? && Current() == r.world
    {
      if jobId !in jobs && job.None? { return false; }
      var info := if jobId in jobs then jobs[jobId] else job.value;
      jobs := jobs[jobId := info];
      var task := new SharedState.Task(jobId, argId, info.redundancy);
      tasks := tasks[id := task];
      var redundancy: int := info.redundancy;
      var i := 0;
      while i < redundancy
        invariant 0 <= i <= redundancy
        invariant jobs == old(jobs)[jobId := info] && tasks == old(tasks)[id := task]
        invariant task.Data() == SharedState.TaskData(jobId, argId, 0, [], SharedState.FreshCompleteness(info.redundancy))
        invariant notices == old(notices) + seq(i, k => (id, Pending))
      {
        Tell(id, Pending);
        i := i + 1;
      }
      ok := true;
      ghost var made := ApplyCreate(old(Current()), id, jobId, argId, job).world.shared;
      assert Current().shared.notices == made.notices;
      forall k | k in tasks ensures Current().shared.tasks[k] == made.tasks[k] {
        if k != id { assert tasks[k].Data() == old(tasks[k].Data()); }
      }
      assert Current().shared.tasks == made.tasks;
    }

    method ApplyStateChange(id: Id, manager: Address, change: StateChange, now: int) returns (ok: bool)
      requires Valid()
      modifies this, chain, if id in tasks then {tasks[id]} else {}
      ensures Valid() && fresh(tasks.Values - old(tasks.Values))
      ensures var r := Apply(EnvAt(now), old(Current()), id, manager, change);
              ok == r.Done? && Current() == r.world
    {
      hide Oracle.FinishCompleted;
      hide Oracle.FinishFailed;
      hide Escrow.Exec;
      hide ApplyCreate;
      hide SharedState.Assign;
      hide SharedState.Unassign;
      hide SharedState.Touch;
      hide SharedState.CanAssign;
      hide SharedState.Payments;
      hide SharedState.FindWorker;
      hide Current;
      SameRecord(id);
      if change.Create? {
        ok := Create(id, change.jobId, change.argId, change.job);
        return;
      }
      if id !in tasks || !tasks[id].completeness.Incomplete? { return false; }
      var task := tasks[id];
      match change {
      case Create(_, _, _) => ok := true;
      case Check(worker) => ok := task.UpdateLastCheck(worker, now);
      case AddManager =>
        task.AddManager(manager);
        ok := true;
      case UnassignWorker(worker) =>
        var a := task.UnassignWorker(worker);
        ok := a.Some?;
        if ok {
          Tell(id, UnassignedFrom(a.value.worker, a.value.workersManager));
          Tell(id, Pending);
        }
      case AssignWorker(worker, workersManager, payment) =>
        ok := task.AssignWorker(SharedState.Assigned(now, worker, workersManager, payment));
        if ok { Tell(id, AssignedTo(worker)); }
      case SetNbFailures(nb) =>
        task.SetNbFailures(nb);
        ok := true;
      case Complete(result) => ok := EndCompleted(id, result, now);
      case Fail(reason) => ok := EndFailed(id, reason, now);
      }
      OneRecord(id);
    }

    method EndCompleted(id: Id, result: Bytes, ghost now: int) returns (ok: bool)
      requires id in tasks && tasks[id].completeness.Incomplete?
      modifies chain, tasks[id]
      ensures var t := old(tasks[id].Data());
              var pays := SharedState.Payments(t.completeness.substates);
              var r := Oracle.FinishCompleted(EnvAt(now), old(chain.State()), id, t.managers, result, pays);
              && ok == r.ok && chain.State() == r.ledger
              && tasks[id].Data() == t.(completeness := SharedState.Completed(result, pays))
    {
      hide Oracle.FinishCompleted;
      var task := tasks[id];
      task.SetCompleted(result);
      ok := FinishCompleted(id, task.managers, result, task.completeness.payments, now);
    }

    method EndFailed(id: Id, reason: SharedState.DefiniteError, ghost now: int) returns (ok: bool)
      requires id in tasks && tasks[id].completeness.Incomplete?
      modifies chain, tasks[id]
      ensures var t := old(tasks[id].Data());
              var r := Oracle.FinishFailed(EnvAt(now), old(chain.State()), id, t.managers, reason);
              && ok == r.ok && chain.State() == r.ledger
              && tasks[id].Data() == t.(completeness := SharedState.DefinetelyFailed(reason))
    {
      hide Oracle.FinishFailed;
      var task := tasks[id];
      task.SetDefinitelyFailed(reason);
      ok := FinishFailed(id, task.managers, reason, now);
    }

    /** Writing to one record leaves the others as they were. */
    twostate lemma OneRecord(id: Id)
      requires id in tasks && tasks == old(tasks) && jobs == old(jobs)
      requires forall k | k in tasks && k != id :: unchanged(tasks[k])
      ensures var w := old(Current());
              && w.ledger == old(chain.State()) && w.shared.notices == old(notices)
              && id in w.shared.tasks && w.shared.tasks[id] == old(tasks[id].Data())
              && Current() == WithTask(World(chain.State(), w.shared.(notices := notices)), id, tasks[id].Data())
    {
      var w := old(Current());
      forall k | k in tasks ensures Current().shared.tasks[k] == w.shared.tasks[id := tasks[id].Data()][k] {
        if k != id { assert tasks[k].Data() == old(tasks[k].Data()); }
      }
      assert Current().shared.tasks == w.shared.tasks[id := tasks[id].Data()];
    }

    lemma SameRecord(id: Id)
      ensures id in Current().shared.tasks <==> id in tasks
      ensures id in tasks ==> Current().shared.tasks[id] == tasks[id].Data()
    {
    }

    /** Handles a proposal under the write lock. `!ok` is the panic of an `unwrap`. */
    method CheckAndApplyProposal(p: Proposal, now: int) returns (ok: bool)
      requires Valid()
      modifies this, chain, tasks.Values
      ensures Valid()
      ensures var r := Propose(EnvAt(now), old(Current()), p);
              ok == r.Done? && Current() == r.world
    {
      hide Apply;
      hide ApplyAll;
      hide Sort;
      hide Handle;
      hide Current;
      if p.payment.None? || p.taskId.None? { return true; }
      var id, manager := p.taskId.value, p.payment.value;
      var verdict := Handle(EnvAt(now), Current(), id, p.kind);
      if verdict.Reject? { return true; }
      if verdict.Panic? { return false; }
      var actions := Sort(verdict.changes + [AddManager]);
      ghost var before := Current();
      ApplyNone(EnvAt(now), before, id, manager, actions);
      var i := 0;
      while i < |actions|
        invariant 0 <= i <= |actions|
        invariant Valid() && fresh(tasks.Values - old(tasks.Values))
        invariant ApplyAll(EnvAt(now), before, id, manager, actions[..i]) == Done(Current())
      {
        ApplyOneMore(EnvAt(now), before, id, manager, actions, i);
        var applied := ApplyStateChange(id, manager, actions[i], now);
        if !applied {
          StoppedStays(EnvAt(now), before, id, manager, actions, i + 1);
          return false;
        }
        i := i + 1;
      }
      assert actions[..i] == actions;
      ok := true;
    }
  }

  lemma ApplyNone(env: Env, w: World, id: Id, manager: Address, changes: seq<StateChange>)
    ensures ApplyAll(env, w, id, manager, changes[..0]) == Done(w)
  {
  }

  lemma ApplyOneMore(env: Env, w: World, id: Id, manager: Address, changes: seq<StateChange>, i: nat)
    requires i < |changes| && ApplyAll(env, w, id, manager, changes[..i]).Done?
    ensures ApplyAll(env, w, id, manager, changes[..i + 1])
            == Apply(env, ApplyAll(env, w, id, manager, changes[..i]).world, id, manager, changes[i])
  {
    hide Apply;
    assert changes[..i + 1][..i] == changes[..i];
  }

  lemma {:induction false} StoppedStays(env: Env, w: World, id: Id, manager: Address, changes: seq<StateChange>, n: nat)
    requires n <= |changes| && ApplyAll(env, w, id, manager, changes[..n]).Stop?
    ensures ApplyAll(env, w, id, manager, changes) == ApplyAll(env, w, id, manager, changes[..n])
  {
    hide Apply;
    if n == |changes| {
      assert changes[..n] == changes;
    } else {
      assert changes[..|changes| - 1][..n] == changes[..n];
      StoppedStays(env, w, id, manager, changes[..|changes| - 1], n);
    }
  }
}

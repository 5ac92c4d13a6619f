/** When the escrow contract accepts the end of a task, and what it then records. */
module OracleChain {
  import opened Base
  import opened SharedState
  import opened Oracle
  import Escrow
  import EscrowSafety
  import EscrowRuns

  lemma CallKeeps(env: Env, l: Escrow.Ledger, call: Escrow.Call)
    requires EscrowSafety.Inv(env.h, l)
    ensures EscrowSafety.Inv(env.h, Call(env, l, call).ledger)
  {
    hide EscrowSafety.Inv;
    hide Escrow.Exec;
    EscrowRuns.StepKeeps(env.h, l, Escrow.Transaction(env.me, call));
  }

  ghost function Bound(l: Escrow.Ledger, id: Id): nat
    requires id in l.tasks
  {
    Escrow.ManagersBound(Escrow.JobAt(l.jobs, l.tasks[id].jobId))
  }

  ghost function WithManagers(l: Escrow.Ledger, id: Id, managers: seq<Address>): Escrow.Ledger
    requires id in l.tasks
  {
    l.(tasks := l.tasks[id := l.tasks[id].(managers := managers)])
  }

  /** The whole list is pushed exactly when it stays within the contract's bound. */
  lemma {:induction false} PushAllIff(env: Env, l: Escrow.Ledger, id: Id, managers: seq<Address>)
    requires id in l.tasks && l.tasks[id].state == Escrow.Incomplete && env.me == l.oracle
    ensures var r := PushAll(env, l, id, managers);
            && (r.ok <==> managers == [] || |l.tasks[id].managers| + |managers| <= Bound(l, id))
            && (r.ok ==> r.ledger == WithManagers(l, id, l.tasks[id].managers + managers))
            && (EscrowSafety.Inv(env.h, l) ==> EscrowSafety.Inv(env.h, r.ledger))
    decreases |managers|
  {
    hide Escrow.ManagersBound;
    hide EscrowSafety.Inv;
    var known := l.tasks[id].managers;
    if managers == [] {
      assert known + managers == known;
      assert l.tasks[id := l.tasks[id].(managers := known)] == l.tasks;
    } else {
      var first := Call(env, l, Escrow.PushManager(id, managers[0]));
      if EscrowSafety.Inv(env.h, l) { CallKeeps(env, l, Escrow.PushManager(id, managers[0])); }
      if first.ok {
        assert first.ledger == WithManagers(l, id, known + [managers[0]]);
        PushAllIff(env, first.ledger, id, managers[1..]);
        assert known + [managers[0]] + managers[1..] == known + managers;
      }
    }
  }

  /** An incomplete task of a consistent ledger belongs to a locked job. */
  lemma OpenTaskJob(h: Escrow.Hashes, l: Escrow.Ledger, id: Id)
    requires EscrowSafety.Inv(h, l) && id in l.tasks
    ensures var j := l.tasks[id].jobId;
            j in l.jobs && !l.jobs[j].isDraft && l.jobs[j].minCheckingInterval > 14 && l.jobs[j].redundancy > 0
    ensures l.tasks[id].state == Escrow.Incomplete ==> l.tasks[id].result == []
  {
    assert EscrowSafety.TaskOk(h, l.jobs, id, l.tasks[id]);
    var j := l.tasks[id].jobId;
    assert EscrowSafety.JobOk(h, l.tasks, j, l.jobs[j]);
  }

  ghost predicate Ready(env: Env, l: Escrow.Ledger, id: Id) {
    && EscrowSafety.Inv(env.h, l) && env.me == l.oracle
    && id in l.tasks && l.tasks[id].state == Escrow.Incomplete && l.tasks[id].managers == []
  }

  ghost predicate OnlyTask(l: Escrow.Ledger, l': Escrow.Ledger, id: Id, task: Escrow.Task) {
    l'.jobs == l.jobs && l'.oracle == l.oracle && l'.tasks == l.tasks[id := task]
  }

  /** The managers of a task that ends are those the oracle lists, if they are not too many. */
  lemma SetManagersIff(env: Env, l: Escrow.Ledger, id: Id, managers: seq<Address>)
    requires Ready(env, l, id) && managers != []
    ensures var r := SetManagers(env, l, id, managers);
            && (r.ok <==> |managers| <= Bound(l, id))
            && (r.ok ==> r.ledger == WithManagers(l, id, managers))
            && EscrowSafety.Inv(env.h, r.ledger)
  {
    hide EscrowSafety.Inv;
    hide Escrow.ManagersBound;
    PushAllIff(env, l, id, managers);
    assert [] + managers == managers;
  }

  lemma FailIff(env: Env, l: Escrow.Ledger, id: Id, managers: seq<Address>, reason: DefiniteError)
    requires Ready(env, l, id) && managers != [] && ToContract(reason).Some?
    ensures var r := FinishFailed(env, l, id, managers, reason);
            && (r.ok <==> |managers| <= Bound(l, id))
            && (r.ok ==> OnlyTask(l, r.ledger, id, l.tasks[id].(managers := managers,
                           state := Escrow.DefinetelyFailed, reason := ToContract(reason).value)))
            && EscrowSafety.Inv(env.h, r.ledger)
  {
    hide EscrowSafety.Inv;
    hide Escrow.ManagersBound;
    hide Escrow.Refund;
    hide Escrow.CreditAll;
    hide Escrow.CreditLog;
    hide Escrow.AllDone;
    SetManagersIff(env, l, id, managers);
    OpenTaskJob(env.h, l, id);
    var r := SetManagers(env, l, id, managers);
    if r.ok {
      CallKeeps(env, r.ledger, Escrow.SetDefinitelyFailed(id, ToContract(reason).value));
    }
  }

  /** A completion is accepted exactly with a result, a payment for every replica, and few enough managers. */
  lemma CompleteIff(env: Env, l: Escrow.Ledger, id: Id, managers: seq<Address>, result: Bytes, pays: seq<PaymentInfo>)
    requires Ready(env, l, id) && managers != []
    ensures var r := FinishCompleted(env, l, id, managers, result, pays);
            && (r.ok <==> |managers| <= Bound(l, id) && |result| > 0 && |pays| == l.jobs[l.tasks[id].jobId].redundancy)
            && (r.ok ==> OnlyTask(l, r.ledger, id, l.tasks[id].(managers := managers,
                           state := Escrow.Completed, result := result)))
            && EscrowSafety.Inv(env.h, r.ledger)
  {
    hide EscrowSafety.Inv;
    hide Escrow.ManagersBound;
    hide Escrow.Refund;
    hide Escrow.CreditAll;
    hide Escrow.CreditLog;
    hide Escrow.AllDone;
    SetManagersIff(env, l, id, managers);
    OpenTaskJob(env.h, l, id);
    var r := SetManagers(env, l, id, managers);
    if r.ok {
      CallKeeps(env, r.ledger, CompletionCall(id, result, pays));
    }
  }

  // ---------------------------------------------------------------- everybody else's transactions

  /** Calls only the oracle account may make, made by it. */
  predicate IsOracleCall(l: Escrow.Ledger, tx: Escrow.Transaction) {
    tx.sender == l.oracle && (tx.call.PushManager? || tx.call.SetDefinitelyFailed? || tx.call.SetCompleted?)
  }

  /** Other transactions leave every task and every locked job as it is; new tasks have no manager. */
  lemma OtherTransactions(h: Escrow.Hashes, l: Escrow.Ledger, tx: Escrow.Transaction)
    requires EscrowSafety.Inv(h, l) && !IsOracleCall(l, tx)
    ensures var l' := Escrow.Step(h, l, tx);
            && l'.oracle == l.oracle
            && (forall id | id in l.tasks :: id in l'.tasks && l'.tasks[id] == l.tasks[id])
            && (forall id | id in l'.tasks && id !in l.tasks :: l'.tasks[id].managers == [])
            && (forall id | id in l.jobs && !l.jobs[id].isDraft :: id in l'.jobs && l'.jobs[id] == l.jobs[id])
  {
    hide EscrowSafety.LocksMatch;
    hide EscrowSafety.EndsMatch;
    hide EscrowSafety.Conserved;
    hide EscrowSafety.TablesOk;
    hide Escrow.FreeNonce;
    match tx.call
    case Lock(id) =>
      if Escrow.ExecLock(h, l, tx.sender, id).Some? {
        EscrowSafety.LockTasksAdds(h, l.tasks, id, |l.jobs[id].arguments|);
        var l' := Escrow.Step(h, l, tx);
        forall t | t in l'.tasks && t !in l.tasks ensures l'.tasks[t].managers == [] {
          var i :| 0 <= i < |l.jobs[id].arguments| && t == Escrow.TaskId(h, id, i);
        }
      }
    case CreateDraft =>
      EscrowRuns.FreeNonceIsFree(h, l.jobs, tx.sender, Escrow.UserAt(l.users, tx.sender).nextNonce, TWO128);
    case _ =>
  }
}

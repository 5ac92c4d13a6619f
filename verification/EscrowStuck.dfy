/**
 Tasks that can never end: with a checking interval of four seconds more than the timeout, the bound of
 `push_manager` is 0, and a task without managers can be neither completed nor failed.
 */
module EscrowStuck {
  import opened Base
  import opened Escrow
  import opened EscrowSafety
  import opened EscrowRuns
  import opened EscrowHistory

  predicate NoManagers(j: Job) {
    j.timeout + 4 == j.minCheckingInterval
  }

  lemma BoundIsZeroIff(j: Job)
    requires j.minCheckingInterval > 14
    ensures ManagersBound(j) == 0 <==> NoManagers(j)
  {
  }

  /** A task nobody can be paid for. */
  ghost predicate Stuck(s: Ledger, id: Id) {
    && id in s.tasks && s.tasks[id].state == Incomplete && s.tasks[id].managers == []
    && s.tasks[id].jobId in s.jobs && NoManagers(s.jobs[s.tasks[id].jobId])
  }

  lemma TaskJob(h: Hashes, s: Ledger, id: Id)
    requires Inv(h, s) && id in s.tasks
    ensures var j := s.tasks[id].jobId; j in s.jobs && !s.jobs[j].isDraft && s.jobs[j].minCheckingInterval > 14
  {
    assert TaskOk(h, s.jobs, id, s.tasks[id]);
    assert JobOk(h, s.tasks, s.tasks[id].jobId, s.jobs[s.tasks[id].jobId]);
  }

  lemma StepStuck(h: Hashes, s: Ledger, tx: Transaction, id: Id)
    requires Inv(h, s) && Stuck(s, id)
    ensures Stuck(Step(h, s, tx), id)
  {
    hide Inv;
    TaskJob(h, s, id);
    StepFreezes(h, s, tx);
    BoundIsZeroIff(s.jobs[s.tasks[id].jobId]);
    StepUntouched(h, s, tx, id);
  }

  /** No transaction reaches the task itself. */
  lemma StepUntouched(h: Hashes, s: Ledger, tx: Transaction, id: Id)
    requires Inv(h, s) && Stuck(s, id) && ManagersBound(s.jobs[s.tasks[id].jobId]) == 0
    ensures id in Step(h, s, tx).tasks && Step(h, s, tx).tasks[id] == s.tasks[id]
  {
    hide Inv;
    hide ManagersBound;
    hide FreeNonce;
    hide LockTasks;
    hide CreditAll;
    hide CreditLog;
    hide Refund;
    hide AllDone;
    hide MaxPrice;
    hide PricePerTask;
    if tx.call.Lock? && ExecLock(h, s, tx.sender, tx.call.id).Some? { LockUntouched(h, s, tx.sender, tx.call.id); }
  }

  lemma LockUntouched(h: Hashes, s: Ledger, who: Address, id: Id)
    requires Inv(h, s) && ExecLock(h, s, who, id).Some?
    ensures forall t | t in s.tasks :: t in ExecLock(h, s, who, id).value.tasks
                                       && ExecLock(h, s, who, id).value.tasks[t] == s.tasks[t]
  {
    hide LocksMatch;
    hide EndsMatch;
    hide Conserved;
    LockTasksAdds(h, s.tasks, id, |s.jobs[id].arguments|);
  }

  lemma {:induction false} RunStuck(h: Hashes, s: Ledger, txs: seq<Transaction>, id: Id)
    requires Inv(h, s) && Stuck(s, id)
    ensures Stuck(Run(h, s, txs), id)
  {
    hide Inv;
    hide Stuck;
    hide Step;
    if txs != [] {
      var front := txs[..|txs| - 1];
      RunStuck(h, s, front, id);
      RunFreezes(h, s, front);
      StepStuck(h, Run(h, s, front), txs[|txs| - 1], id);
    }
  }

  ghost predicate Endable(h: Hashes, s: Ledger, id: Id) {
    exists txs :: Ended(Run(h, s, txs), id)
  }

  ghost predicate Ended(s: Ledger, id: Id) {
    id in s.tasks && s.tasks[id].state != Incomplete
  }

  /**
   From any consistent state, some run ends an incomplete task exactly when it has a manager already or
   the timeout of its job is not four seconds short of the checking interval.
   */
  lemma EndableIff(h: Hashes, s: Ledger, id: Id)
    requires Inv(h, s) && id in s.tasks && s.tasks[id].state == Incomplete
    ensures s.tasks[id].jobId in s.jobs
    ensures Endable(h, s, id) <==> s.tasks[id].managers != [] || !NoManagers(s.jobs[s.tasks[id].jobId])
  {
    hide Inv;
    hide Run;
    TaskJob(h, s, id);
    BoundIsZeroIff(s.jobs[s.tasks[id].jobId]);
    if Stuck(s, id) {
      forall txs ensures !Ended(Run(h, s, txs), id) {
        RunStuck(h, s, txs, id);
      }
    } else {
      var txs := EndingRun(h, s, id);
      assert Ended(Run(h, s, txs), id);
    }
  }

  lemma EndingRun(h: Hashes, s: Ledger, id: Id) returns (txs: seq<Transaction>)
    requires Inv(h, s) && id in s.tasks && s.tasks[id].state == Incomplete && s.tasks[id].jobId in s.jobs
    requires s.jobs[s.tasks[id].jobId].minCheckingInterval > 14
    requires s.tasks[id].managers != [] || ManagersBound(s.jobs[s.tasks[id].jobId]) > 0
    ensures Ended(Run(h, s, txs), id)
  {
    hide Inv;
    hide ManagersBound;
    hide Step;
    var push, fail := Transaction(s.oracle, PushManager(id, s.oracle)), Transaction(s.oracle, SetDefinitelyFailed(id, Runtime));
    if s.tasks[id].managers != [] {
      txs := [fail];
      assert [fail][..0] == [];
      Fails(h, s, id);
    } else {
      txs := [push, fail];
      assert [push, fail][..1] == [push] && [push][..0] == [];
      assert Run(h, s, [push]) == Step(h, s, push);
      Pushes1(h, s, id);
      Fails(h, Step(h, s, push), id);
    }
  }

  lemma Pushes1(h: Hashes, s: Ledger, id: Id)
    requires id in s.tasks && s.tasks[id].state == Incomplete && s.tasks[id].jobId in s.jobs
    requires s.tasks[id].managers == [] && ManagersBound(s.jobs[s.tasks[id].jobId]) > 0
    ensures var s' := Step(h, s, Transaction(s.oracle, PushManager(id, s.oracle)));
            s' == s.(tasks := s.tasks[id := s.tasks[id].(managers := [s.oracle])])
  {
    hide ManagersBound;
    assert [] + [s.oracle] == [s.oracle];
  }

  lemma Fails(h: Hashes, s: Ledger, id: Id)
    requires id in s.tasks && s.tasks[id].state == Incomplete && s.tasks[id].managers != []
    requires s.tasks[id].jobId in s.jobs && s.jobs[s.tasks[id].jobId].minCheckingInterval > 14
    ensures Ended(Step(h, s, Transaction(s.oracle, SetDefinitelyFailed(id, Runtime))), id)
  {
    hide CreditAll;
    hide CreditLog;
    hide Refund;
    hide AllDone;
    hide PricePerTask;
  }

  // ---------------------------------------------------------------- from deployment

  ghost predicate AllStuck(s: Ledger) {
    forall id | id in s.tasks && s.tasks[id].jobId in s.jobs && NoManagers(s.jobs[s.tasks[id].jobId]) :: Stuck(s, id)
  }

  /** New tasks have no manager either. */
  lemma StepAllStuck(h: Hashes, s: Ledger, tx: Transaction)
    requires Inv(h, s) && AllStuck(s)
    ensures AllStuck(Step(h, s, tx))
  {
    hide Inv;
    hide Step;
    var s' := Step(h, s, tx);
    StepFreezes(h, s, tx);
    NewTasksFresh(h, s, tx);
    forall id | id in s'.tasks && s'.tasks[id].jobId in s'.jobs && NoManagers(s'.jobs[s'.tasks[id].jobId]) ensures Stuck(s', id) {
      if id in s.tasks {
        TaskJob(h, s, id);
        StepStuck(h, s, tx, id);
      }
    }
  }

  lemma NewTasksFresh(h: Hashes, s: Ledger, tx: Transaction)
    requires Inv(h, s)
    ensures forall id | id in Step(h, s, tx).tasks && id !in s.tasks ::
              Step(h, s, tx).tasks[id].state == Incomplete && Step(h, s, tx).tasks[id].managers == []
  {
    hide Inv;
    hide FreeNonce;
    hide LockTasks;
    hide CreditAll;
    hide CreditLog;
    hide Refund;
    hide AllDone;
    hide MaxPrice;
    hide PricePerTask;
    if tx.call.Lock? && ExecLock(h, s, tx.sender, tx.call.id).Some? {
      var id := tx.call.id;
      LockTasksAdds(h, s.tasks, id, |s.jobs[id].arguments|);
      var s' := Step(h, s, tx);
      forall t | t in s'.tasks && t !in s.tasks ensures s'.tasks[t].state == Incomplete && s'.tasks[t].managers == [] {
        var i :| 0 <= i < |s.jobs[id].arguments| && t == TaskId(h, id, i);
      }
    }
  }

  lemma {:induction false} RunAllStuck(h: Hashes, oracle: Address, txs: seq<Transaction>)
    ensures Inv(h, Run(h, Deployed(oracle), txs)) && AllStuck(Run(h, Deployed(oracle), txs))
  {
    hide Inv;
    hide AllStuck;
    hide Step;
    if txs == [] {
      DeployedInv(h, oracle);
      NothingStuck(oracle);
    } else {
      var front := txs[..|txs| - 1];
      RunAllStuck(h, oracle, front);
      StepAllStuck(h, Run(h, Deployed(oracle), front), txs[|txs| - 1]);
      StepKeeps(h, Run(h, Deployed(oracle), front), txs[|txs| - 1]);
    }
  }

  lemma NothingStuck(oracle: Address)
    ensures AllStuck(Deployed(oracle))
  {
  }

  /**
   Over every run, a locked job of this kind never loses an open task: none of its arguments is ever
   computed, its end is never announced, and its sender keeps owing the whole price.
   */
  lemma NeverEnds(h: Hashes, oracle: Address, txs: seq<Transaction>, id: Id)
    requires var s := Run(h, Deployed(oracle), txs); id in s.jobs && !s.jobs[id].isDraft && NoManagers(s.jobs[id])
    ensures var s := Run(h, Deployed(oracle), txs);
            && OpenTasks(h, s.tasks, id, s.jobs[id]) == |s.jobs[id].arguments|
            && !Finished(h, s, id) && Ends(s.log, id) == 0
            && id in Dues(h, s.jobs, s.tasks, s.jobs[id].sender)
            && Dues(h, s.jobs, s.tasks, s.jobs[id].sender)[id] == Due(PricePerTask(s.jobs[id]), |s.jobs[id].arguments|)
  {
    hide Run;
    hide PricePerTask;
    hide LocksMatch;
    hide Conserved;
    RunAllStuck(h, oracle, txs);
    var s := Run(h, Deployed(oracle), txs);
    var n := |s.jobs[id].arguments|;
    assert JobOk(h, s.tasks, id, s.jobs[id]);
    forall i | 0 <= i < n ensures StateAt(s.tasks, TaskId(h, id, i)) == Incomplete {
      assert HasTask(h, s.tasks, id, i);
    }
    OpenCountFull(h, s.tasks, id, n);
  }
}

/** What can no longer change in the contract, and a run in which money appears. */
module EscrowHistory {
  import opened Base
  import opened Escrow
  import opened EscrowSafety
  import opened EscrowMoney
  import opened EscrowRuns
  import opened EscrowSolvency

  // ---------------------------------------------------------------- frozen records

  /** Locked jobs keep their record for ever; tasks keep their place, and finished ones everything; the log grows. */
  ghost predicate Keeps(s: Ledger, s': Ledger) {
    && s.log <= s'.log
    && (forall id | id in s.jobs && !s.jobs[id].isDraft :: id in s'.jobs && s'.jobs[id] == s.jobs[id])
    && (forall id | id in s.tasks ::
          && id in s'.tasks
          && s'.tasks[id].jobId == s.tasks[id].jobId
          && s'.tasks[id].argumentId == s.tasks[id].argumentId
          && (s.tasks[id].state != Incomplete ==> s'.tasks[id] == s.tasks[id]))
  }

  lemma StepFreezes(h: Hashes, s: Ledger, tx: Transaction)
    requires Inv(h, s)
    ensures Keeps(s, Step(h, s, tx))
  {
    hide Refund;
    hide CreditAll;
    hide CreditLog;
    hide FreeNonce;
    hide LocksMatch;
    hide EndsMatch;
    hide Conserved;
    hide TablesOk;
    match tx.call
    case Lock(id) =>
      if ExecLock(h, s, tx.sender, id).Some? { LockTasksAdds(h, s.tasks, id, |s.jobs[id].arguments|); }
    case CreateDraft => FreeNonceIsFree(h, s.jobs, tx.sender, UserAt(s.users, tx.sender).nextNonce, TWO128);
    case _ =>
  }

  lemma {:induction false} RunFreezes(h: Hashes, s: Ledger, txs: seq<Transaction>)
    requires Inv(h, s)
    ensures Inv(h, Run(h, s, txs)) && Keeps(s, Run(h, s, txs))
  {
    hide Inv;
    hide Step;
    if txs != [] {
      var front := txs[..|txs| - 1];
      RunFreezes(h, s, front);
      StepFreezes(h, Run(h, s, front), txs[|txs| - 1]);
      StepKeeps(h, Run(h, s, front), txs[|txs| - 1]);
    }
  }

  // ---------------------------------------------------------------- the end of a job

  /** The public `is_job_completed` of a locked job tells whether no task of it is open. */
  lemma IsJobCompletedMeans(h: Hashes, s: Ledger, id: Id)
    requires id in s.jobs && !s.jobs[id].isDraft
    ensures IsJobCompleted(h, s, id) == Some(Finished(h, s, id))
  {
    OpenCountZero(h, s.tasks, id, |s.jobs[id].arguments|);
  }

  /** A finished job stays finished. */
  lemma FinishedForever(h: Hashes, s: Ledger, txs: seq<Transaction>, id: Id)
    requires Inv(h, s) && Finished(h, s, id)
    ensures Finished(h, Run(h, s, txs), id)
  {
    hide LocksMatch;
    hide EndsMatch;
    hide Conserved;
    hide Run;
    RunFreezes(h, s, txs);
    var s', n := Run(h, s, txs), |s.jobs[id].arguments|;
    OpenCountZero(h, s.tasks, id, n);
    OpenCountZero(h, s'.tasks, id, n);
    assert JobOk(h, s.tasks, id, s.jobs[id]);
    forall i | 0 <= i < n ensures StateAt(s'.tasks, TaskId(h, id, i)) != Incomplete {
      assert HasTask(h, s.tasks, id, i);
      assert StateAt(s.tasks, TaskId(h, id, i)) != Incomplete;
    }
  }

  /** `JobCompleted` appears in the log at the very transaction that finishes the job, and only then. */
  lemma CompletedAtTheEnd(h: Hashes, s: Ledger, tx: Transaction, id: Id)
    requires Inv(h, s)
    ensures Ends(Step(h, s, tx).log, id)
            == Ends(s.log, id) + (if Finished(h, Step(h, s, tx), id) && !Finished(h, s, id) then 1 else 0)
    ensures Ends(s.log, id) <= 1
  {
    hide Step;
    hide Finished;
    hide TablesOk;
    hide LocksMatch;
    hide Conserved;
    StepKeeps(h, s, tx);
    if Finished(h, s, id) {
      FinishedForever(h, s, [tx], id);
      assert Run(h, s, [tx]) == Step(h, Run(h, s, [tx][..0]), tx) && [tx][..0] == [];
    }
  }

  // ---------------------------------------------------------------- money out of nothing

  function Pushes(n: nat, oracle: Address, id: Id, manager: Address): seq<Transaction> {
    seq(n, i => Transaction(oracle, PushManager(id, manager)))
  }

  /** Pushing the same manager `n` times. */
  lemma {:induction false} RunPushes(h: Hashes, s: Ledger, n: nat, id: Id, manager: Address)
    requires id in s.tasks && s.tasks[id].state == Incomplete && s.tasks[id].managers == []
    requires n <= ManagersBound(JobAt(s.jobs, s.tasks[id].jobId))
    ensures Run(h, s, Pushes(n, s.oracle, id, manager))
            == s.(tasks := s.tasks[id := s.tasks[id].(managers := seq(n, i => manager))])
  {
    hide ManagersBound;
    if n == 0 {
      assert Pushes(0, s.oracle, id, manager) == [];
      assert seq(0, i => manager) == s.tasks[id].managers;
      assert s.tasks[id].(managers := seq(0, i => manager)) == s.tasks[id];
      assert s.tasks[id := s.tasks[id]] == s.tasks;
    } else {
      var txs := Pushes(n, s.oracle, id, manager);
      assert txs[..n - 1] == Pushes(n - 1, s.oracle, id, manager);
      RunPushes(h, s, n - 1, id, manager);
      assert seq(n - 1, i => manager) + [manager] == seq(n, i => manager);
    }
  }

  lemma {:induction false} RunAppend(h: Hashes, s: Ledger, p: seq<Transaction>, q: seq<Transaction>)
    ensures Run(h, s, p + q) == Run(h, Run(h, s, p), q)
  {
    if q == [] {
      assert p + q == p;
    } else {
      RunAppend(h, s, p, q[..|q| - 1]);
      assert (p + q)[..|p + q| - 1] == p + q[..|q| - 1];
    }
  }

  /** A sender deposits 14 wei, the price of one task with the default parameters, and locks it. */
  function LockOne(h: Hashes, who: Address): seq<Transaction> {
    var id := JobId(h, who, 0);
    [Transaction(who, SendPendingMoney(14)), Transaction(who, CreateDraft),
     Transaction(who, PushArgument(id, [1])), Transaction(who, Lock(id))]
  }

  lemma LockOneRuns(h: Hashes, oracle: Address, who: Address)
    ensures var s := Run(h, Deployed(oracle), LockOne(h, who));
            var id := JobId(h, who, 0);
            && s.jobs == map[id := NewDraft(who, 0).(arguments := [[1]], isDraft := false)]
            && s.tasks == map[TaskId(h, id, 0) := FreshTask(id, 0)]
            && s.users == map[who := User(1, 14, 0)]
            && s.oracle == oracle && s.ether == 14
  {
    var txs := LockOne(h, who);
    var id := JobId(h, who, 0);
    var s0 := Deployed(oracle);
    var s1 := Step(h, s0, txs[0]);
    var s2 := Step(h, s1, txs[1]);
    var s3 := Step(h, s2, txs[2]);
    assert s1.users == map[who := User(0, 0, 14)] && s1.jobs == map[];
    assert FreeNonce(h, s1.jobs, who, 0, TWO128) == Some(0);
    assert s2.users == map[who := User(1, 0, 14)] && s2.jobs == map[id := NewDraft(who, 0)];
    var j := NewDraft(who, 0).(arguments := [[1]]);
    assert s3.jobs == map[id := j] && s3.users == s2.users && s3.tasks == map[] by {
      assert NewDraft(who, 0).arguments + [[1]] == [[1]];
    }
    LockOneStep(h, s3, who, id, j);
    RunFour(h, s0, txs);
  }

  lemma RunFour(h: Hashes, s: Ledger, txs: seq<Transaction>)
    requires |txs| == 4
    ensures Run(h, s, txs) == Step(h, Step(h, Step(h, Step(h, s, txs[0]), txs[1]), txs[2]), txs[3])
  {
    hide Step;
    assert txs[..3][..2] == txs[..2] && txs[..2][..1] == txs[..1] && txs[..1][..0] == [];
    assert Run(h, s, txs[..1]) == Step(h, s, txs[0]);
    assert Run(h, s, txs[..2]) == Step(h, Run(h, s, txs[..1]), txs[1]);
    assert Run(h, s, txs[..3]) == Step(h, Run(h, s, txs[..2]), txs[2]);
  }

  lemma LockOneStep(h: Hashes, s: Ledger, who: Address, id: Id, j: Job)
    requires j == NewDraft(who, 0).(arguments := [[1]])
    requires s.jobs == map[id := j] && s.tasks == map[] && s.users == map[who := User(1, 0, 14)]
    ensures var s' := Step(h, s, Transaction(who, Lock(id)));
            && s'.jobs == map[id := j.(isDraft := false)]
            && s'.tasks == map[TaskId(h, id, 0) := FreshTask(id, 0)]
            && s'.users == map[who := User(1, 14, 0)]
            && s'.oracle == s.oracle && s'.ether == s.ether
  {
    assert PricePerTask(j) == 14 && MaxPrice(j) == 14;
    assert LockTasks(h, s.tasks, id, 0) == Some(s.tasks);
    assert LockTasks(h, s.tasks, id, 1) == Some(map[TaskId(h, id, 0) := FreshTask(id, 0)]);
    SamePrice(j, j.(isDraft := false));
  }

  /**
   A complete run of accepted transactions after which the accounts are worth more than the
   contract holds: 15 managers are paid 1 wei each out of a task worth 14.
   */
  lemma MoneyFromNothing(h: Hashes, oracle: Address, who: Address, manager: Address)
    requires who != manager
    ensures var id := JobId(h, who, 0);
            var task := TaskId(h, id, 0);
            var before := Run(h, Deployed(oracle), LockOne(h, who) + Pushes(15, oracle, task, manager));
            var tx := Transaction(oracle, SetDefinitelyFailed(task, Runtime));
            && Solvent(h, before) && Exec(h, before, tx).Some?
            && before.ether == 14 && UserAt(Step(h, before, tx).users, manager).pending == 15
  {
    hide Run;
    var id := JobId(h, who, 0);
    var task := TaskId(h, id, 0);
    var locked := Run(h, Deployed(oracle), LockOne(h, who));
    var before := Run(h, Deployed(oracle), LockOne(h, who) + Pushes(15, oracle, task, manager));
    LockOneRuns(h, oracle, who);
    DefaultDraftBounds(who, 0);
    RunPushes(h, locked, 15, task, manager);
    RunAppend(h, Deployed(oracle), LockOne(h, who), Pushes(15, oracle, task, manager));
    ExampleSolvent(h, before, who, id, seq(15, i => manager));
    ExampleFails(h, before, who, manager, id);
  }

  lemma ExampleSolvent(h: Hashes, s: Ledger, who: Address, id: Id, managers: seq<Address>)
    requires |managers| == 15
    requires s.jobs == map[id := NewDraft(who, 0).(arguments := [[1]], isDraft := false)]
    requires s.tasks == map[TaskId(h, id, 0) := FreshTask(id, 0).(managers := managers)]
    requires s.users == map[who := User(1, 14, 0)] && s.ether == 14
    ensures Solvent(h, s)
  {
    hide TablesOk;
    hide Owed;
    ExampleTables(h, s, who, id, managers);
    forall a ensures UserAt(s.users, a).locked == Owed(h, s.jobs, s.tasks, a) {
      ExampleOwed(h, s, who, id, managers, a);
    }
    assert Holdings(s.users) == map[][who := 14];
    SumUpdate(map[], who, 14);
  }

  lemma ExampleTables(h: Hashes, s: Ledger, who: Address, id: Id, managers: seq<Address>)
    requires |managers| == 15
    requires s.jobs == map[id := NewDraft(who, 0).(arguments := [[1]], isDraft := false)]
    requires s.tasks == map[TaskId(h, id, 0) := FreshTask(id, 0).(managers := managers)]
    ensures TablesOk(h, s.jobs, s.tasks)
  {
    hide PricePerTask;
    DefaultDraftBounds(who, 0);
    assert HasTask(h, s.tasks, id, 0);
    assert JobOk(h, s.tasks, id, s.jobs[id]);
    assert TaskOk(h, s.jobs, TaskId(h, id, 0), s.tasks[TaskId(h, id, 0)]);
  }

  lemma ExampleDue(h: Hashes, s: Ledger, who: Address, id: Id, managers: seq<Address>)
    requires s.jobs == map[id := NewDraft(who, 0).(arguments := [[1]], isDraft := false)]
    requires s.tasks == map[TaskId(h, id, 0) := FreshTask(id, 0).(managers := managers)]
    ensures Due(PricePerTask(s.jobs[id]), OpenTasks(h, s.tasks, id, s.jobs[id])) == 14
  {
    var j := s.jobs[id];
    assert PricePerTask(j) == 14;
    OneOpen(h, s.tasks, id, managers);
    hide PricePerTask;
    hide OpenCount;
    assert OpenTasks(h, s.tasks, id, j) == OpenCount(h, s.tasks, id, 1);
  }

  lemma OneOpen(h: Hashes, tasks: map<Id, Task>, id: Id, managers: seq<Address>)
    requires tasks == map[TaskId(h, id, 0) := FreshTask(id, 0).(managers := managers)]
    ensures OpenCount(h, tasks, id, 1) == 1
  {
    assert OpenCount(h, tasks, id, 0) == 0;
    assert StateAt(tasks, TaskId(h, id, 0)) == Incomplete;
  }

  lemma ExampleOwed(h: Hashes, s: Ledger, who: Address, id: Id, managers: seq<Address>, a: Address)
    requires s.jobs == map[id := NewDraft(who, 0).(arguments := [[1]], isDraft := false)]
    requires s.tasks == map[TaskId(h, id, 0) := FreshTask(id, 0).(managers := managers)]
    ensures Owed(h, s.jobs, s.tasks, a) == if a == who then 14 else 0
  {
    var j := s.jobs[id];
    if a == who {
      ExampleDue(h, s, who, id, managers);
      assert Dues(h, s.jobs, s.tasks, a) == map[][id := 14] by { hide Due; hide PricePerTask; hide OpenTasks; }
      SumUpdate(map[], id, 14);
    } else {
      assert Dues(h, s.jobs, s.tasks, a) == map[];
    }
  }

  lemma {:induction false} PaidEach(pays: seq<Payment>, a: Address, fee: nat)
    requires forall i | 0 <= i < |pays| :: pays[i].to == a && pays[i].amount == fee
    ensures PaidTo(pays, a) == |pays| * fee
  {
    if pays != [] {
      PaidEach(pays[..|pays| - 1], a, fee);
      Distribute(|pays| - 1, 1, fee);
    }
  }

  lemma ExampleFails(h: Hashes, s: Ledger, who: Address, manager: Address, id: Id)
    requires who != manager
    requires s.jobs == map[id := NewDraft(who, 0).(arguments := [[1]], isDraft := false)]
    requires s.tasks == map[TaskId(h, id, 0) := FreshTask(id, 0).(managers := seq(15, i => manager))]
    requires s.users == map[who := User(1, 14, 0)]
    ensures var tx := Transaction(s.oracle, SetDefinitelyFailed(TaskId(h, id, 0), Runtime));
            Exec(h, s, tx).Some? && UserAt(Step(h, s, tx).users, manager).pending == 15
  {
    hide CreditAll;
    hide CreditLog;
    hide PricePerTask;
    var task := TaskId(h, id, 0);
    var pays := FailurePays(s, task);
    CreditAllGives(s.users, pays, manager);
    PaidEach(pays, manager, 1);
  }
}

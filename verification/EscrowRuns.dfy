/** Every transaction, and so every run, keeps the invariant of the escrow contract. */
module EscrowRuns {
  import opened Base
  import opened Escrow
  import opened EscrowSafety
  import opened EscrowMoney

  // ---------------------------------------------------------------- the event log

  lemma {:induction false} NoEnds(log: seq<Event>, id: Id)
    requires forall e | e in log :: !e.JobCompleted?
    ensures Ends(log, id) == 0
  {
    assert JobCompleted(id) !in log;
  }

  lemma EndsAppend(log: seq<Event>, more: seq<Event>, id: Id)
    ensures Ends(log + more, id) == Ends(log, id) + Ends(more, id)
  {
  }

  lemma {:induction false} CreditLogPlain(users: map<Address, User>, pays: seq<Payment>)
    ensures forall e | e in CreditLog(users, pays) :: e.PendingMoneyChanged?
  {
    if pays != [] {
      CreditLogPlain(users, pays[..|pays| - 1]);
    }
  }

  /** Events other than `JobCompleted`, about tables in which the same jobs are finished. */
  lemma EndsFrame(h: Hashes, s: Ledger, s': Ledger, more: seq<Event>)
    requires EndsMatch(h, s) && s'.log == s.log + more
    requires forall e | e in more :: !e.JobCompleted?
    requires forall id :: Finished(h, s', id) <==> Finished(h, s, id)
    ensures EndsMatch(h, s')
  {
    hide Finished;
    forall id ensures Ends(s'.log, id) == if Finished(h, s', id) then 1 else 0 {
      EndsAppend(s.log, more, id);
      NoEnds(more, id);
    }
  }

  // ---------------------------------------------------------------- deposits and withdrawals

  ghost predicate OnlyPending(s: Ledger, s': Ledger, who: Address, change: int) {
    var u := UserAt(s.users, who);
    && s'.jobs == s.jobs && s'.tasks == s.tasks
    && s.ether + change >= 0 && s'.ether == s.ether + change
    && exists pending: uint256 ::
         && U256(pending) == U256(u.pending + change)
         && s'.users == s.users[who := User(u.nextNonce, u.locked, pending)]
         && s'.log == s.log + [PendingMoneyChanged(who, pending)]
  }

  lemma PendingKeeps(h: Hashes, s: Ledger, s': Ledger, who: Address, change: int)
    requires Inv(h, s) && OnlyPending(s, s', who, change)
    ensures Inv(h, s')
  {
    hide Owed;
    hide OpenTasks;
    hide TablesOk;
    hide U256;
    hide Total;
    hide Held;
    var u := UserAt(s.users, who);
    var pending: uint256 :| && U256(pending) == U256(u.pending + change)
                            && s'.users == s.users[who := User(u.nextNonce, u.locked, pending)]
                            && s'.log == s.log + [PendingMoneyChanged(who, pending)];
    var u' := User(u.nextNonce, u.locked, pending);
    TotalUpdate(s.users, who, u');
    PendingHeld(Total(s.users), u, u', s.ether, change);
    EndsFrame(h, s, s', [PendingMoneyChanged(who, pending)]);
    assert forall a :: UserAt(s'.users, a).locked == UserAt(s.users, a).locked;
  }

  lemma PendingHeld(total: int, u: User, u': User, ether: int, change: int)
    requires u'.locked == u.locked && U256(u'.pending) == U256(u.pending + change) && U256(total) == U256(ether)
    ensures U256(total - Held(u) + Held(u')) == U256(ether + change)
  {
    hide U256;
    WholeTurns(u'.pending, u.pending + change);
    WholeTurns(total, ether);
    TurnsAdd(u'.pending - (u.pending + change), total - ether);
    var after, expected: int := total - Held(u) + Held(u'), ether + change;
    assert after - expected == (u'.pending - (u.pending + change)) + (total - ether);
    WholeTurns(after, expected);
  }

  lemma SendKeeps(h: Hashes, s: Ledger, who: Address, value: uint256)
    requires Inv(h, s)
    ensures Inv(h, ExecSend(s, who, value))
  {
    hide Inv;
    var s' := ExecSend(s, who, value);
    var pending := U256(UserAt(s.users, who).pending + value);
    assert U256(pending) == U256(UserAt(s.users, who).pending + value);
    assert OnlyPending(s, s', who, value);
    PendingKeeps(h, s, s', who, value);
  }

  lemma RecoverKeeps(h: Hashes, s: Ledger, who: Address, amount: uint256, accepted: bool)
    requires Inv(h, s) && ExecRecover(s, who, amount, accepted).Some?
    ensures Inv(h, ExecRecover(s, who, amount, accepted).value)
  {
    hide Inv;
    var s' := ExecRecover(s, who, amount, accepted).value;
    var pending: uint256 := UserAt(s.users, who).pending - amount;
    assert U256(pending) == U256(UserAt(s.users, who).pending + 0 - amount);
    assert OnlyPending(s, s', who, 0 - amount);
    PendingKeeps(h, s, s', who, 0 - amount);
  }

  // ---------------------------------------------------------------- drafts

  /** Creating, editing and deleting drafts: no money moves, no job is locked or finished. */
  lemma DraftKeeps(h: Hashes, s: Ledger, s': Ledger, more: seq<Event>)
    requires Inv(h, s) && DraftChange(s.jobs, s'.jobs) && s'.tasks == s.tasks && s'.ether == s.ether
    requires s'.log == s.log + more && forall e | e in more :: !e.JobCompleted?
    requires forall a :: UserAt(s'.users, a).locked == UserAt(s.users, a).locked
    requires Total(s'.users) == Total(s.users)
    ensures Inv(h, s')
  {
    hide Owed;
    hide OpenTasks;
    hide Total;
    hide U256;
    hide TablesOk;
    DraftChangeKeeps(h, s.jobs, s.tasks, s'.jobs);
    forall id ensures Finished(h, s', id) <==> Finished(h, s, id) {
      if id in s'.jobs && id !in s.jobs { assert s'.jobs[id].isDraft; }
    }
    EndsFrame(h, s, s', more);
  }

  lemma EditKeeps(h: Hashes, s: Ledger, who: Address, id: Id, valid: bool, job: Job)
    requires Inv(h, s) && Edit(s, who, id, valid, job).Some?
    requires job.isDraft && job.minCheckingInterval > 14
    ensures Inv(h, Edit(s, who, id, valid, job).value)
  {
    DraftKeeps(h, s, Edit(s, who, id, valid, job).value, []);
  }

  lemma DeleteKeeps(h: Hashes, s: Ledger, who: Address, id: Id)
    requires Inv(h, s) && IsOurDraft(s, who, id)
    ensures Inv(h, s.(jobs := s.jobs - {id}))
  {
    DraftKeeps(h, s, s.(jobs := s.jobs - {id}), []);
  }

  lemma {:induction false} FreeNonceIsFree(h: Hashes, jobs: map<Id, Job>, who: Address, nonce: uint128, tries: nat)
    ensures FreeNonce(h, jobs, who, nonce, tries).Some? ==>
              JobId(h, who, FreeNonce(h, jobs, who, nonce, tries).value) !in jobs
    decreases tries
  {
    if tries > 0 && JobId(h, who, nonce) in jobs {
      FreeNonceIsFree(h, jobs, who, U128(nonce + 1), tries - 1);
    }
  }

  lemma CreateKeeps(h: Hashes, s: Ledger, who: Address)
    requires Inv(h, s) && ExecCreate(h, s, who).Some?
    ensures Inv(h, ExecCreate(h, s, who).value)
  {
    hide Inv;
    hide Total;
    hide FreeNonce;
    hide JobId;
    var s' := ExecCreate(h, s, who).value;
    var u, u' := UserAt(s.users, who), UserAt(s'.users, who);
    FreeNonceIsFree(h, s.jobs, who, u.nextNonce, TWO128);
    CreateTotal(s.users, who, u'.nextNonce);
    DraftKeeps(h, s, s', s'.log[|s.log|..]);
  }

  lemma CreateTotal(users: map<Address, User>, who: Address, nonce: uint128)
    ensures Total(users[who := UserAt(users, who).(nextNonce := nonce)]) == Total(users)
  {
    hide Total;
    var u := UserAt(users, who);
    TotalUpdate(users, who, u.(nextNonce := nonce));
  }

  // ---------------------------------------------------------------- locking

  lemma LockKeeps(h: Hashes, s: Ledger, who: Address, id: Id)
    requires Inv(h, s) && ExecLock(h, s, who, id).Some?
    ensures Inv(h, ExecLock(h, s, who, id).value)
  {
    var s' := ExecLock(h, s, who, id).value;
    LockKeepsTables(h, s.jobs, s.tasks, id);
    LockMoney(h, s, who, id);
    LockEnds(h, s, who, id);
  }

  lemma LockEnds(h: Hashes, s: Ledger, who: Address, id: Id)
    requires Inv(h, s) && ExecLock(h, s, who, id).Some?
    ensures EndsMatch(h, ExecLock(h, s, who, id).value)
  {
    hide OpenTasks;
    hide TablesOk;
    hide MaxPrice;
    hide LocksMatch;
    hide Conserved;
    var s' := ExecLock(h, s, who, id).value;
    LockKeepsTables(h, s.jobs, s.tasks, id);
    var n := |s.jobs[id].arguments|;
    var more := s'.log[|s.log|..];
    assert s'.log == s.log + more;
    forall j ensures Finished(h, s', j) <==> Finished(h, s, j) {
      if j in s.jobs && j != id { assert s'.jobs[j] == s.jobs[j]; }
    }
    EndsFrame(h, s, s', more);
  }

  lemma LockMoney(h: Hashes, s: Ledger, who: Address, id: Id)
    requires Inv(h, s) && ExecLock(h, s, who, id).Some?
    ensures LocksMatch(h, ExecLock(h, s, who, id).value)
    ensures Conserved(ExecLock(h, s, who, id).value)
  {
    hide Owed;
    hide TablesOk;
    hide PricePerTask;
    hide MaxPrice;
    hide Due;
    hide U256;
    hide Total;
    hide Held;
    hide EndsMatch;
    var s' := ExecLock(h, s, who, id).value;
    var u, u' := UserAt(s.users, who), UserAt(s'.users, who);
    var j := s.jobs[id];
    SamePrice(j, s'.jobs[id]);
    var price := MaxPrice(j);
    assert u' == User(u.nextNonce, U256(u.locked + price), U256(u.pending - price));
    TotalUpdate(s.users, who, u');
    LockHeld(Total(s.users), u, u', price);
    LockPrice(j, Owed(h, s.jobs, s.tasks, who));
    forall a ensures UserAt(s'.users, a).locked == U256(Owed(h, s'.jobs, s'.tasks, a)) {
      LockOwes(h, s.jobs, s.tasks, id, a);
    }
  }

  lemma LockHeld(total: int, u: User, u': User, price: uint256)
    requires u' == User(u.nextNonce, U256(u.locked + price), U256(u.pending - price))
    ensures U256(total - Held(u) + Held(u')) == U256(total)
  {
  }

  lemma LockPrice(j: Job, owed: int)
    ensures U256(U256(owed) + MaxPrice(j)) == U256(owed + Due(PricePerTask(j), |j.arguments|))
  {
    hide PricePerTask;
    hide U256;
    var due := Due(PricePerTask(j), |j.arguments|);
    assert MaxPrice(j) == U256(due);
    WrapPlus(owed, U256(due));
    WrapPlus(due, owed);
  }

  // ---------------------------------------------------------------- managers

  lemma PushManagerKeeps(h: Hashes, s: Ledger, who: Address, id: Id, manager: Address)
    requires Inv(h, s) && ExecPushManager(s, who, id, manager).Some?
    ensures Inv(h, ExecPushManager(s, who, id, manager).value)
  {
    hide Owed;
    hide OpenTasks;
    hide TablesOk;
    hide Total;
    var s' := ExecPushManager(s, who, id, manager).value;
    ManagersKeep(h, s.jobs, s.tasks, id, s.tasks[id].managers + [manager]);
    assert s'.log == s.log + [];
    EndsFrame(h, s, s', []);
  }

  // ---------------------------------------------------------------- finishing a task

  lemma SettleKeeps(h: Hashes, s: Ledger, id: Id, task: Task, pays: seq<Payment>, sayRefund: bool, said: Event)
    requires Inv(h, s) && id in s.tasks && Closes(s.tasks[id], task) && !said.JobCompleted?
    requires Settle(h, s, id, task, pays, sayRefund, said).Some?
    ensures Inv(h, Settle(h, s, id, task, pays, sayRefund, said).value)
  {
    var s' := Settle(h, s, id, task, pays, sayRefund, said).value;
    CloseKeepsTables(h, s.jobs, s.tasks, id, task);
    SettleMoney(h, s, id, task, pays, sayRefund, said);
    SettleEnds(h, s, id, task, pays, sayRefund, said);
  }

  lemma SettleMoney(h: Hashes, s: Ledger, id: Id, task: Task, pays: seq<Payment>, sayRefund: bool, said: Event)
    requires Inv(h, s) && id in s.tasks && Closes(s.tasks[id], task)
    requires Settle(h, s, id, task, pays, sayRefund, said).Some?
    ensures LocksMatch(h, Settle(h, s, id, task, pays, sayRefund, said).value)
    ensures Conserved(Settle(h, s, id, task, pays, sayRefund, said).value)
  {
    hide Owed;
    hide TablesOk;
    hide PricePerTask;
    hide U256;
    hide Total;
    hide EndsMatch;
    hide CreditAll;
    hide SumPays;
    var s' := Settle(h, s, id, task, pays, sayRefund, said).value;
    var j := s.jobs[task.jobId];
    var price: int := PricePerTask(j);
    CreditAllTotal(s.users, pays);
    RefundTotal(CreditAll(s.users, pays), j.sender, price, SumPays(pays));
    SettleWraps(Total(s.users), Total(CreditAll(s.users, pays)), SumPays(pays));
    forall a ensures UserAt(s'.users, a).locked == U256(Owed(h, s'.jobs, s'.tasks, a)) {
      CreditAllGives(s.users, pays, a);
      CloseOwes(h, s.jobs, s.tasks, id, task, a);
      WrapPlus(Owed(h, s.jobs, s.tasks, a), 0 - price);
    }
  }

  lemma SettleWraps(total: int, after: int, paid: int)
    requires U256(after) == U256(total + paid)
    ensures U256(after - paid) == U256(total)
  {
  }

  /** `JobCompleted` is emitted by the transaction that finishes the last task of the job, and no other. */
  lemma SettleEnds(h: Hashes, s: Ledger, id: Id, task: Task, pays: seq<Payment>, sayRefund: bool, said: Event)
    requires Inv(h, s) && id in s.tasks && Closes(s.tasks[id], task) && !said.JobCompleted?
    requires Settle(h, s, id, task, pays, sayRefund, said).Some?
    ensures EndsMatch(h, Settle(h, s, id, task, pays, sayRefund, said).value)
  {
    hide TablesOk;
    hide LocksMatch;
    hide Conserved;
    hide CreditLog;
    hide Refund;
    hide Finished;
    hide AllDone;
    hide Ends;
    var s' := Settle(h, s, id, task, pays, sayRefund, said).value;
    var j := task.jobId;
    var ended := AllDone(h, s'.tasks, j, |s.jobs[j].arguments|);
    var end := if ended then [JobCompleted(j)] else [];
    CreditLogPlain(s.users, pays);
    var told := if sayRefund then [PendingMoneyChanged(s.jobs[j].sender, UserAt(s'.users, s.jobs[j].sender).pending)] else [];
    var more := CreditLog(s.users, pays) + told + [said];
    assert s'.log == s.log + more + end;
    SettledJobs(h, s, s', id, task);
    forall k ensures Ends(s'.log, k) == if Finished(h, s', k) then 1 else 0 {
      EndsAppend(s.log + more, end, k);
      EndsAppend(s.log, more, k);
      NoEnds(more, k);
      EndsEnd(j, ended, k);
    }
  }

  lemma EndsEnd(j: Id, ended: bool, k: Id)
    ensures Ends(if ended then [JobCompleted(j)] else [], k) == if ended && j == k then 1 else 0
  {
  }

  lemma SettledJobs(h: Hashes, s: Ledger, s': Ledger, id: Id, task: Task)
    requires TablesOk(h, s.jobs, s.tasks) && id in s.tasks && Closes(s.tasks[id], task)
    requires s'.jobs == s.jobs && s'.tasks == s.tasks[id := task]
    ensures task.jobId in s.jobs && !Finished(h, s, task.jobId)
    ensures Finished(h, s', task.jobId) <==> AllDone(h, s'.tasks, task.jobId, |s.jobs[task.jobId].arguments|)
    ensures forall k | k != task.jobId :: Finished(h, s', k) <==> Finished(h, s, k)
  {
    hide OpenTasks;
    CloseKeepsTables(h, s.jobs, s.tasks, id, task);
    SettledJob(h, s, s'.tasks, id);
  }

  /** The job of an incomplete task is locked and unfinished; it is finished once nothing is open. */
  lemma SettledJob(h: Hashes, s: Ledger, tasks': map<Id, Task>, id: Id)
    requires TablesOk(h, s.jobs, s.tasks) && id in s.tasks && s.tasks[id].state == Incomplete
    ensures var j := s.tasks[id].jobId;
            && j in s.jobs && !s.jobs[j].isDraft && !Finished(h, s, j)
            && (OpenTasks(h, tasks', j, s.jobs[j]) == 0 <==> AllDone(h, tasks', j, |s.jobs[j].arguments|))
  {
    var j := s.tasks[id].jobId;
    assert TaskOk(h, s.jobs, id, s.tasks[id]);
    OpenCountZero(h, s.tasks, j, |s.jobs[j].arguments|);
    OpenCountZero(h, tasks', j, |s.jobs[j].arguments|);
    assert StateAt(s.tasks, TaskId(h, j, s.tasks[id].argumentId)) == Incomplete;
  }

  // ---------------------------------------------------------------- runs

  lemma StepKeeps(h: Hashes, s: Ledger, tx: Transaction)
    requires Inv(h, s)
    ensures Inv(h, Step(h, s, tx))
  {
    hide Inv;
    hide ExecLock;
    hide ExecCreate;
    hide Settle;
    if Exec(h, s, tx).Some? {
      var who := tx.sender;
      match tx.call
      case SendPendingMoney(value) => SendKeeps(h, s, who, value);
      case RecoverPendingMoney(amount, accepted) => RecoverKeeps(h, s, who, amount, accepted);
      case CreateDraft => CreateKeeps(h, s, who);
      case DeleteDraft(id) => DeleteKeeps(h, s, who, id);
      case Lock(id) => LockKeeps(h, s, who, id);
      case PushManager(id, manager) => PushManagerKeeps(h, s, who, id, manager);
      case SetDefinitelyFailed(id, reason) =>
        SettleKeeps(h, s, id, s.tasks[id].(state := DefinetelyFailed, reason := reason), FailurePays(s, id),
                    false, TaskDefinetelyFailed(id, reason));
      case SetCompleted(id, result, workers, workerPrices, networkPrices) =>
        SettleKeeps(h, s, id, s.tasks[id].(state := Completed, result := result),
                    CompletionPays(s, id, workers, workerPrices, networkPrices), true, TaskCompleted(id, result));
      case _ => EditCallKeeps(h, s, tx);
    }
  }

  lemma EditCallKeeps(h: Hashes, s: Ledger, tx: Transaction)
    requires Inv(h, s) && Exec(h, s, tx).Some?
    requires tx.call.SetParameters? || tx.call.SetOtherData? || tx.call.ResetArguments? || tx.call.PushArgument?
             || tx.call.SetWorkerParameters? || tx.call.SetManagementParameters?
    ensures Inv(h, Step(h, s, tx))
  {
    hide Inv;
    DraftInterval(h, s, tx.call.id);
    match tx.call
    case SetParameters(id, timeout, redundancy, maxFailures) =>
      EditKeeps(h, s, tx.sender, id, timeout > 9 && redundancy > 0,
                s.jobs[id].(timeout := timeout, redundancy := redundancy, maxFailures := maxFailures));
    case SetOtherData(id, data) => EditKeeps(h, s, tx.sender, id, true, s.jobs[id].(otherData := data));
    case ResetArguments(id) => EditKeeps(h, s, tx.sender, id, true, s.jobs[id].(arguments := []));
    case PushArgument(id, argument) =>
      EditKeeps(h, s, tx.sender, id, |argument| > 0, s.jobs[id].(arguments := s.jobs[id].arguments + [argument]));
    case SetWorkerParameters(id, p, u, n) =>
      EditKeeps(h, s, tx.sender, id, p > 0 && n > 0,
                s.jobs[id].(maxWorkerPrice := p, maxNetworkUsage := u, maxNetworkPrice := n));
    case SetManagementParameters(id, interval, price) =>
      EditKeeps(h, s, tx.sender, id, interval > 14 && price > 0,
                s.jobs[id].(minCheckingInterval := interval, managementPrice := price));
  }

  lemma DraftInterval(h: Hashes, s: Ledger, id: Id)
    requires Inv(h, s)
    ensures id in s.jobs ==> s.jobs[id].minCheckingInterval > 14
  {
    if id in s.jobs { assert JobOk(h, s.tasks, id, s.jobs[id]); }
  }

  lemma DeployedInv(h: Hashes, oracle: Address)
    ensures Inv(h, Deployed(oracle))
  {
    var s := Deployed(oracle);
    forall a ensures UserAt(s.users, a).locked == U256(Owed(h, s.jobs, s.tasks, a)) {
      assert Dues(h, s.jobs, s.tasks, a) == map[];
    }
    assert Holdings(s.users) == map[];
  }

  /**
   The main invariant, over every run from deployment: consistent tables, locked money equal to the
   price of the unfinished tasks, conserved money, and one `JobCompleted` for each finished job.
   */
  lemma {:induction false} RunKeeps(h: Hashes, oracle: Address, txs: seq<Transaction>)
    ensures Inv(h, Run(h, Deployed(oracle), txs))
  {
    if txs == [] {
      DeployedInv(h, oracle);
    } else {
      RunKeeps(h, oracle, txs[..|txs| - 1]);
      StepKeeps(h, Run(h, Deployed(oracle), txs[..|txs| - 1]), txs[|txs| - 1]);
    }
  }
}

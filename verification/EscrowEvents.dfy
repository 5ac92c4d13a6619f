/** What the event log of the contract tells: the state of every task, every new job, and every balance. */
module EscrowEvents {
  import opened Base
  import opened Escrow
  import opened EscrowSafety
  import opened EscrowRuns
  import opened EscrowDrafts
  import opened EscrowHistory

  ghost function Times(log: seq<Event>, e: Event): nat {
    multiset(log)[e]
  }

  lemma TimesAppend(log: seq<Event>, more: seq<Event>, e: Event)
    ensures Times(log + more, e) == Times(log, e) + Times(more, e)
  {
  }

  // ---------------------------------------------------------------- locking

  /**
   A successful `lock` announces each task it makes under its own id, in the order of the arguments, and then
   the new balance. The tasks announced are exactly those that were not there before.
   */
  lemma LockSays(h: Hashes, s: Ledger, tx: Transaction)
    requires tx.call.Lock? && Exec(h, s, tx).Some?
    ensures var s', id := Step(h, s, tx), tx.call.id;
            && id in s.jobs
            && var n, m := |s.jobs[id].arguments|, |s.log|;
               && s.log <= s'.log && |s'.log| == m + n + 1
               && (forall i | 0 <= i < n :: s'.log[m + i] == TaskPending(h.task(id, i)) && h.task(id, i) !in s.tasks)
               && (forall t :: t in s'.tasks <==> t in s.tasks || exists i :: 0 <= i < n && t == h.task(id, i))
               && s'.log[m + n] == PendingMoneyChanged(tx.sender, UserAt(s'.users, tx.sender).pending)
  {
    hide MaxPrice;
    hide DraftReady;
    hide LockTasks;
    var s', id := Step(h, s, tx), tx.call.id;
    var n := |s.jobs[id].arguments|;
    LockTasksAdds(h, s.tasks, id, n);
    forall t ensures t in s'.tasks <==> t in s.tasks || exists i :: 0 <= i < n && t == h.task(id, i) {
      if i :| 0 <= i < n && t == h.task(id, i) { assert HasTask(h, s'.tasks, id, i); }
    }
    forall i | 0 <= i < n ensures h.task(id, i) !in s.tasks {
      assert TaskId(h, id, i) !in s.tasks;
    }
  }

  // ---------------------------------------------------------------- tasks

  function End(id: Id, t: Task): Option<Event> {
    match t.state
    case Incomplete => None
    case Completed => Some(TaskCompleted(id, t.result))
    case DefinetelyFailed => Some(TaskDefinetelyFailed(id, t.reason))
  }

  predicate EndsTask(e: Event) {
    e.TaskCompleted? || e.TaskDefinetelyFailed?
  }

  /**
   The log tells the tasks: each is announced once, an end of one is told once, and only the end it had,
   with its result or reason.
   */
  ghost predicate TasksSaid(s: Ledger) {
    && (forall id :: Times(s.log, TaskPending(id)) == if id in s.tasks then 1 else 0)
    && (forall e: Event | EndsTask(e) ::
          Times(s.log, e) == if e.taskId in s.tasks && End(e.taskId, s.tasks[e.taskId]) == Some(e) then 1 else 0)
  }

  predicate AboutTask(e: Event) {
    e.TaskPending? || EndsTask(e)
  }

  lemma Without(more: seq<Event>, e: Event)
    requires forall x | x in more :: !AboutTask(x)
    requires AboutTask(e)
    ensures Times(more, e) == 0
  {
    assert e !in more;
  }

  /** Steps that leave states of tasks alone and say nothing about them. */
  lemma Silent(s: Ledger, s': Ledger, more: seq<Event>)
    requires TasksSaid(s) && s'.log == s.log + more && forall x | x in more :: !AboutTask(x)
    requires s'.tasks.Keys == s.tasks.Keys
    requires forall id | id in s.tasks :: End(id, s'.tasks[id]) == End(id, s.tasks[id])
    ensures TasksSaid(s')
  {
    hide Times;
    hide End;
    forall id ensures Times(s'.log, TaskPending(id)) == if id in s'.tasks then 1 else 0 {
      TimesAppend(s.log, more, TaskPending(id));
      Without(more, TaskPending(id));
    }
    forall e: Event | EndsTask(e)
      ensures Times(s'.log, e) == if e.taskId in s'.tasks && End(e.taskId, s'.tasks[e.taskId]) == Some(e) then 1 else 0
    {
      TimesAppend(s.log, more, e);
      Without(more, e);
    }
  }

  lemma LockTells(h: Hashes, s: Ledger, tx: Transaction)
    requires TasksSaid(s) && TablesOk(h, s.jobs, s.tasks) && tx.call.Lock? && Exec(h, s, tx).Some?
    ensures TasksSaid(Step(h, s, tx))
  {
    hide Times;
    hide MaxPrice;
    hide DraftReady;
    hide LockTasks;
    hide TablesOk;
    hide LockLog;
    var s', id := Step(h, s, tx), tx.call.id;
    var n := |s.jobs[id].arguments|;
    LockTasksAdds(h, s.tasks, id, n);
    var told := LockLog(h, id, n);
    var balance := [PendingMoneyChanged(tx.sender, UserAt(s'.users, tx.sender).pending)];
    assert s'.log == s.log + told + balance;
    forall t ensures Times(s'.log, TaskPending(t)) == if t in s'.tasks then 1 else 0 {
      TimesAppend(s.log + told, balance, TaskPending(t));
      TimesAppend(s.log, told, TaskPending(t));
      Without(balance, TaskPending(t));
      LockLogOnce(h, s.tasks, id, n, t);
    }
    forall e: Event | EndsTask(e)
      ensures Times(s'.log, e) == if e.taskId in s'.tasks && End(e.taskId, s'.tasks[e.taskId]) == Some(e) then 1 else 0
    {
      TimesAppend(s.log + told, balance, e);
      TimesAppend(s.log, told, e);
      Without(balance, e);
      LockLogEnds(h, id, n, e);
      if e.taskId in s'.tasks && e.taskId !in s.tasks {
        var i :| 0 <= i < n && e.taskId == TaskId(h, id, i);
        assert s'.tasks[e.taskId] == FreshTask(id, i);
      }
    }
  }

  /** Each new task is announced once. */
  lemma {:induction false} LockLogOnce(h: Hashes, tasks: map<Id, Task>, id: Id, n: nat, t: Id)
    requires LockTasks(h, tasks, id, n).Some?
    ensures Times(LockLog(h, id, n), TaskPending(t)) == if t in LockTasks(h, tasks, id, n).value && t !in tasks then 1 else 0
  {
    if n > 0 {
      LockLogOnce(h, tasks, id, n - 1, t);
      LockTasksAdds(h, tasks, id, n - 1);
      assert LockLog(h, id, n) == LockLog(h, id, n - 1) + [TaskPending(TaskId(h, id, n - 1))];
    }
  }

  lemma LockLogEnds(h: Hashes, id: Id, n: nat, e: Event)
    requires EndsTask(e)
    ensures Times(LockLog(h, id, n), e) == 0
  {
    assert e !in LockLog(h, id, n);
  }

  /** The end of a task is told by the transaction that ends it. */
  lemma SettleTells(h: Hashes, s: Ledger, id: Id, task: Task, pays: seq<Payment>, sayRefund: bool, said: Event)
    requires TasksSaid(s) && id in s.tasks && Closes(s.tasks[id], task)
    requires EndsTask(said) && End(id, task) == Some(said)
    requires Settle(h, s, id, task, pays, sayRefund, said).Some?
    ensures TasksSaid(Settle(h, s, id, task, pays, sayRefund, said).value)
  {
    hide Times;
    hide CreditLog;
    hide Refund;
    hide AllDone;
    hide PricePerTask;
    hide SumPays;
    hide CreditAll;
    var s' := Settle(h, s, id, task, pays, sayRefund, said).value;
    var j := s.jobs[task.jobId];
    CreditLogPlain(s.users, pays);
    var told := if sayRefund then [PendingMoneyChanged(j.sender, UserAt(s'.users, j.sender).pending)] else [];
    var a := CreditLog(s.users, pays) + told;
    var ended := if AllDone(h, s'.tasks, task.jobId, |j.arguments|) then [JobCompleted(task.jobId)] else [];
    assert s'.log == s.log + (a + [said] + ended);
    forall e: Event | AboutTask(e) ensures Times(s'.log, e) == Times(s.log, e) + (if e == said then 1 else 0) {
      TimesAppend(s.log, a + [said] + ended, e);
      TimesAppend(a + [said], ended, e);
      TimesAppend(a, [said], e);
      Without(a, e);
      Without(ended, e);
      TimesOne(said, e);
    }
    SettledSaid(s, s', id, task, said);
  }

  lemma TimesOne(said: Event, e: Event)
    ensures Times([said], e) == if e == said then 1 else 0
  {
  }

  lemma SettledSaid(s: Ledger, s': Ledger, id: Id, task: Task, said: Event)
    requires TasksSaid(s) && id in s.tasks && Closes(s.tasks[id], task) && s'.tasks == s.tasks[id := task]
    requires EndsTask(said) && End(id, task) == Some(said)
    requires forall e: Event | AboutTask(e) :: Times(s'.log, e) == Times(s.log, e) + (if e == said then 1 else 0)
    ensures TasksSaid(s')
  {
    hide Times;
    forall t ensures Times(s'.log, TaskPending(t)) == if t in s'.tasks then 1 else 0 {
      assert AboutTask(TaskPending(t));
    }
    forall e: Event | EndsTask(e)
      ensures Times(s'.log, e) == if e.taskId in s'.tasks && End(e.taskId, s'.tasks[e.taskId]) == Some(e) then 1 else 0
    {
      assert AboutTask(e);
      if e.taskId == id { assert End(id, s.tasks[id]) == None; }
    }
  }

  lemma StepTells(h: Hashes, s: Ledger, tx: Transaction)
    requires Inv(h, s) && TasksSaid(s)
    ensures TasksSaid(Step(h, s, tx))
  {
    hide TasksSaid;
    hide TablesOk;
    hide LocksMatch;
    hide EndsMatch;
    hide Conserved;
    hide Settle;
    hide FreeNonce;
    if Exec(h, s, tx).Some? {
      match tx.call
      case Lock(id) => LockTells(h, s, tx);
      case SetDefinitelyFailed(id, reason) =>
        SettleTells(h, s, id, s.tasks[id].(state := DefinetelyFailed, reason := reason), FailurePays(s, id),
                    false, TaskDefinetelyFailed(id, reason));
      case SetCompleted(id, result, workers, workerPrices, networkPrices) =>
        SettleTells(h, s, id, s.tasks[id].(state := Completed, result := result),
                    CompletionPays(s, id, workers, workerPrices, networkPrices), true, TaskCompleted(id, result));
      case _ =>
        var s' := Step(h, s, tx);
        PlainTells(h, s, tx);
        Silent(s, s', s'.log[|s.log|..]);
    }
  }

  lemma PlainTells(h: Hashes, s: Ledger, tx: Transaction)
    requires Exec(h, s, tx).Some?
    requires !tx.call.Lock? && !tx.call.SetDefinitelyFailed? && !tx.call.SetCompleted?
    ensures var s' := Step(h, s, tx);
            && |s.log| <= |s'.log| && s'.log == s.log + s'.log[|s.log|..]
            && (forall x | x in s'.log[|s.log|..] :: !AboutTask(x))
            && s'.tasks.Keys == s.tasks.Keys
            && (forall id | id in s.tasks :: End(id, s'.tasks[id]) == End(id, s.tasks[id]))
  {
    hide FreeNonce;
    hide ManagersBound;
    hide U256;
    hide End;
    hide Edit;
    if Edits(tx.call) { EditsOwn(h, s, tx); }
    if tx.call.PushManager? { EndSame(tx.call.taskId, s.tasks[tx.call.taskId], Step(h, s, tx).tasks[tx.call.taskId]); }
  }

  lemma EndSame(id: Id, t: Task, t': Task)
    requires t'.state == t.state && t'.result == t.result && t'.reason == t.reason
    ensures End(id, t') == End(id, t)
  {
  }

  /** Over every run the log tells every task that exists and how it ended, each once, and nothing else about tasks. */
  lemma {:induction false} RunTells(h: Hashes, oracle: Address, txs: seq<Transaction>)
    ensures Inv(h, Run(h, Deployed(oracle), txs)) && TasksSaid(Run(h, Deployed(oracle), txs))
  {
    hide Inv;
    hide Step;
    hide TasksSaid;
    if txs == [] {
      DeployedInv(h, oracle);
      DeployedTells(oracle);
    } else {
      var s := Run(h, Deployed(oracle), txs[..|txs| - 1]);
      RunTells(h, oracle, txs[..|txs| - 1]);
      StepKeeps(h, s, txs[|txs| - 1]);
      StepTells(h, s, txs[|txs| - 1]);
    }
  }

  lemma DeployedTells(oracle: Address)
    ensures TasksSaid(Deployed(oracle))
  {
  }

  /** The call decides the record: a completion stores its result, a failure its reason, and no other task changes. */
  lemma EndsAsCalled(h: Hashes, s: Ledger, tx: Transaction)
    requires Inv(h, s) && TasksSaid(s) && Exec(h, s, tx).Some? && (tx.call.SetCompleted? || tx.call.SetDefinitelyFailed?)
    ensures var s', id := Step(h, s, tx), tx.call.taskId;
            && tx.sender == s.oracle && id in s.tasks && s.tasks[id].state == Incomplete && s.tasks[id].managers != []
            && s'.tasks == s.tasks[id := s'.tasks[id]] && s'.jobs == s.jobs && s'.ether == s.ether
            && (tx.call.SetCompleted? ==>
                  && s'.tasks[id] == s.tasks[id].(state := Completed, result := tx.call.result)
                  && Times(s'.log, TaskCompleted(id, tx.call.result)) == 1)
            && (tx.call.SetDefinitelyFailed? ==>
                  && s'.tasks[id] == s.tasks[id].(state := DefinetelyFailed, reason := tx.call.reason)
                  && Times(s'.log, TaskDefinetelyFailed(id, tx.call.reason)) == 1)
  {
    hide Inv;
    hide TasksSaid;
    hide CreditLog;
    hide Refund;
    hide AllDone;
    hide PricePerTask;
    hide SumPays;
    hide CreditAll;
    hide WorkerPays;
    hide End;
    StepTells(h, s, tx);
    var s', id := Step(h, s, tx), tx.call.taskId;
    TimesOfEnd(s', id);
    EndOf(id, s'.tasks[id]);
  }

  lemma EndOf(id: Id, t: Task)
    ensures t.state == Completed ==> End(id, t) == Some(TaskCompleted(id, t.result))
    ensures t.state == DefinetelyFailed ==> End(id, t) == Some(TaskDefinetelyFailed(id, t.reason))
  {
  }

  lemma TimesOfEnd(s: Ledger, id: Id)
    requires TasksSaid(s) && id in s.tasks
    ensures End(id, s.tasks[id]).Some? ==> Times(s.log, End(id, s.tasks[id]).value) == 1
  {
    hide Times;
  }

  // ---------------------------------------------------------------- balances

  /** The balance of `a` the log told last. */
  function LastBalance(log: seq<Event>, a: Address): Option<uint256> {
    if log == [] then None
    else
      var last := log[|log| - 1];
      if last.PendingMoneyChanged? && last.account == a then Some(last.newVal) else LastBalance(log[..|log| - 1], a)
  }

  lemma {:induction false} LastAppend(log: seq<Event>, more: seq<Event>, a: Address)
    ensures LastBalance(log + more, a) == if LastBalance(more, a).Some? then LastBalance(more, a) else LastBalance(log, a)
  {
    if more == [] {
      assert log + more == log;
    } else {
      LastAppend(log, more[..|more| - 1], a);
      assert (log + more)[..|log + more| - 1] == log + more[..|more| - 1];
    }
  }

  lemma LastOne(e: Event, a: Address)
    ensures LastBalance([e], a) == if e.PendingMoneyChanged? && e.account == a then Some(e.newVal) else None
  {
    assert [e][..0] == [];
  }

  lemma {:induction false} LastNone(log: seq<Event>, a: Address)
    requires forall e | e in log :: !e.PendingMoneyChanged?
    ensures LastBalance(log, a) == None
  {
    if log != [] { LastNone(log[..|log| - 1], a); }
  }

  /** What `more` tells of the account of `a` is its balance; it may be silent if nothing changed. */
  ghost predicate Says(more: seq<Event>, a: Address, before: uint256, after: uint256) {
    LastBalance(more, a) == Some(after) || (LastBalance(more, a) == None && after == before)
  }

  lemma {:induction false} CreditSays(users: map<Address, User>, pays: seq<Payment>, a: Address)
    ensures Says(CreditLog(users, pays), a, UserAt(users, a).pending, UserAt(CreditAll(users, pays), a).pending)
  {
    if pays != [] {
      var front := pays[..|pays| - 1];
      CreditSays(users, front, a);
      var to := pays[|pays| - 1].to;
      var said := PendingMoneyChanged(to, UserAt(CreditAll(users, pays), to).pending);
      LastAppend(CreditLog(users, front), [said], a);
      LastOne(said, a);
    }
  }

  lemma SettleSays(h: Hashes, s: Ledger, id: Id, task: Task, pays: seq<Payment>, sayRefund: bool, said: Event, a: Address)
    requires id in s.tasks && EndsTask(said) && Settle(h, s, id, task, pays, sayRefund, said).Some?
    requires sayRefund || a != s.jobs[task.jobId].sender
    ensures var s' := Settle(h, s, id, task, pays, sayRefund, said).value;
            && |s.log| <= |s'.log| && s'.log == s.log + s'.log[|s.log|..]
            && Says(s'.log[|s.log|..], a, UserAt(s.users, a).pending, UserAt(s'.users, a).pending)
  {
    hide CreditLog;
    hide CreditAll;
    hide AllDone;
    hide PricePerTask;
    hide SumPays;
    hide LastBalance;
    var s' := Settle(h, s, id, task, pays, sayRefund, said).value;
    var j := s.jobs[task.jobId];
    var paid := CreditLog(s.users, pays);
    var told := if sayRefund then [PendingMoneyChanged(j.sender, UserAt(s'.users, j.sender).pending)] else [];
    var ended := if AllDone(h, s'.tasks, task.jobId, |j.arguments|) then [JobCompleted(task.jobId)] else [];
    var rest := [said] + ended;
    assert s'.log[|s.log|..] == paid + told + rest;
    CreditSays(s.users, pays, a);
    LastAppend(paid + told, rest, a);
    LastNone(rest, a);
    LastAppend(paid, told, a);
    if sayRefund { LastOne(told[0], a); } else { LastNone(told, a); }
  }

  /** The refund of a failed task is the one change of a balance the contract does not announce. */
  ghost predicate RefundedSilently(s: Ledger, tx: Transaction, a: Address) {
    && tx.call.SetDefinitelyFailed? && tx.call.taskId in s.tasks && s.tasks[tx.call.taskId].jobId in s.jobs
    && s.jobs[s.tasks[tx.call.taskId].jobId].sender == a
  }

  /** Every other change is announced by the transaction that makes it, with the balance it leaves. */
  lemma StepSays(h: Hashes, s: Ledger, tx: Transaction, a: Address)
    requires !RefundedSilently(s, tx, a)
    ensures var s' := Step(h, s, tx);
            && |s.log| <= |s'.log| && s'.log == s.log + s'.log[|s.log|..]
            && Says(s'.log[|s.log|..], a, UserAt(s.users, a).pending, UserAt(s'.users, a).pending)
  {
    hide Settle;
    hide FreeNonce;
    hide LockTasks;
    hide ManagersBound;
    hide DraftReady;
    hide MaxPrice;
    hide Says;
    hide ExecLock;
    var s' := Step(h, s, tx);
    if Exec(h, s, tx).None? {
      SaysNothing(s.log, a, UserAt(s.users, a).pending);
    } else {
      match tx.call
      case SetDefinitelyFailed(id, reason) =>
        SettledJobKnown(h, s, id, s.tasks[id].(state := DefinetelyFailed, reason := reason), FailurePays(s, id),
                        false, TaskDefinetelyFailed(id, reason));
        SettleSays(h, s, id, s.tasks[id].(state := DefinetelyFailed, reason := reason), FailurePays(s, id),
                   false, TaskDefinetelyFailed(id, reason), a);
      case SetCompleted(id, result, workers, workerPrices, networkPrices) =>
        SettleSays(h, s, id, s.tasks[id].(state := Completed, result := result),
                   CompletionPays(s, id, workers, workerPrices, networkPrices), true, TaskCompleted(id, result), a);
      case Lock(id) => LockBalance(h, s, tx, a);
      case _ => PlainSays(h, s, tx, a);
    }
  }

  lemma SettledJobKnown(h: Hashes, s: Ledger, id: Id, task: Task, pays: seq<Payment>, sayRefund: bool, said: Event)
    requires id in s.tasks && Settle(h, s, id, task, pays, sayRefund, said).Some?
    ensures task.jobId in s.jobs
  {
  }

  lemma SaysNothing(log: seq<Event>, a: Address, balance: uint256)
    ensures log == log + log[|log|..] && Says(log[|log|..], a, balance, balance)
  {
  }

  lemma LockBalance(h: Hashes, s: Ledger, tx: Transaction, a: Address)
    requires tx.call.Lock? && Exec(h, s, tx).Some?
    ensures var s' := Step(h, s, tx);
            && |s.log| <= |s'.log| && s'.log == s.log + s'.log[|s.log|..]
            && Says(s'.log[|s.log|..], a, UserAt(s.users, a).pending, UserAt(s'.users, a).pending)
  {
    hide LockTasks;
    hide MaxPrice;
    hide DraftReady;
    hide LastBalance;
    var s', id := Step(h, s, tx), tx.call.id;
    var told := LockLog(h, id, |s.jobs[id].arguments|);
    var balance := PendingMoneyChanged(tx.sender, UserAt(s'.users, tx.sender).pending);
    assert s'.log[|s.log|..] == told + [balance];
    LastAppend(told, [balance], a);
    LastNone(told, a);
    LastOne(balance, a);
  }

  lemma PlainSays(h: Hashes, s: Ledger, tx: Transaction, a: Address)
    requires Exec(h, s, tx).Some? && !tx.call.Lock? && !tx.call.SetCompleted? && !tx.call.SetDefinitelyFailed?
    ensures var s' := Step(h, s, tx);
            && |s.log| <= |s'.log| && s'.log == s.log + s'.log[|s.log|..]
            && Says(s'.log[|s.log|..], a, UserAt(s.users, a).pending, UserAt(s'.users, a).pending)
  {
    hide FreeNonce;
    hide ManagersBound;
    hide LastBalance;
    hide Edit;
    if Edits(tx.call) { EditsOwn(h, s, tx); }
    var s' := Step(h, s, tx);
    var more := s'.log[|s.log|..];
    if tx.call.SendPendingMoney? || tx.call.RecoverPendingMoney? || tx.call.CreateDraft? {
      assert |more| == 1 && more == [more[0]];
      LastOne(more[0], a);
    } else {
      assert more == [];
      LastNone(more, a);
    }
  }

  /** `a` has had the price of a failed task refunded. */
  ghost predicate Unannounced(s: Ledger, a: Address) {
    exists id :: id in s.tasks && s.tasks[id].state == DefinetelyFailed
                 && s.tasks[id].jobId in s.jobs && s.jobs[s.tasks[id].jobId].sender == a
  }

  /**
   Over every run, the balance of an account is the one announced last, or 0 before the first one; only for
   the sender of a job with a failed task it may differ.
   */
  ghost predicate BalancesSaid(s: Ledger) {
    forall a | !Unannounced(s, a) ::
      UserAt(s.users, a).pending == if LastBalance(s.log, a).Some? then LastBalance(s.log, a).value else 0
  }

  lemma UnannouncedStays(h: Hashes, s: Ledger, tx: Transaction, a: Address)
    requires Inv(h, s) && Unannounced(s, a)
    ensures Unannounced(Step(h, s, tx), a)
  {
    hide LocksMatch;
    hide EndsMatch;
    hide Conserved;
    hide Step;
    StepFreezes(h, s, tx);
    var id :| id in s.tasks && s.tasks[id].state == DefinetelyFailed
              && s.tasks[id].jobId in s.jobs && s.jobs[s.tasks[id].jobId].sender == a;
    assert TaskOk(h, s.jobs, id, s.tasks[id]);
    var s' := Step(h, s, tx);
    assert s'.tasks[id] == s.tasks[id] && s'.jobs[s.tasks[id].jobId] == s.jobs[s.tasks[id].jobId];
  }

  lemma SilentlyUnannounced(h: Hashes, s: Ledger, tx: Transaction, a: Address)
    requires Exec(h, s, tx).Some? && RefundedSilently(s, tx, a)
    ensures Unannounced(Step(h, s, tx), a)
  {
    hide Refund;
    hide CreditAll;
    hide CreditLog;
    hide AllDone;
    hide PricePerTask;
    var s', id := Step(h, s, tx), tx.call.taskId;
    assert s'.tasks[id].state == DefinetelyFailed && s'.tasks[id].jobId in s'.jobs;
  }

  lemma StepBalances(h: Hashes, s: Ledger, tx: Transaction)
    requires Inv(h, s) && BalancesSaid(s)
    ensures BalancesSaid(Step(h, s, tx))
  {
    hide Inv;
    hide Exec;
    hide LastBalance;
    hide Unannounced;
    hide RefundedSilently;
    var s' := Step(h, s, tx);
    if Exec(h, s, tx).Some? {
      forall a | !Unannounced(s', a)
        ensures UserAt(s'.users, a).pending == if LastBalance(s'.log, a).Some? then LastBalance(s'.log, a).value else 0
      {
        if Unannounced(s, a) { UnannouncedStays(h, s, tx, a); }
        if RefundedSilently(s, tx, a) { SilentlyUnannounced(h, s, tx, a); }
        StepSays(h, s, tx, a);
        LastAppend(s.log, s'.log[|s.log|..], a);
      }
    }
  }

  lemma {:induction false} RunSays(h: Hashes, oracle: Address, txs: seq<Transaction>)
    ensures Inv(h, Run(h, Deployed(oracle), txs)) && BalancesSaid(Run(h, Deployed(oracle), txs))
  {
    hide Inv;
    hide Step;
    hide BalancesSaid;
    if txs == [] {
      DeployedInv(h, oracle);
      DeployedSays(oracle);
    } else {
      var s := Run(h, Deployed(oracle), txs[..|txs| - 1]);
      RunSays(h, oracle, txs[..|txs| - 1]);
      StepKeeps(h, s, txs[|txs| - 1]);
      StepBalances(h, s, txs[|txs| - 1]);
    }
  }

  lemma DeployedSays(oracle: Address)
    ensures BalancesSaid(Deployed(oracle))
  {
  }

  // ---------------------------------------------------------------- jobs

  /** Every job is filed under its own sender and nonce, and was announced under them. */
  ghost predicate JobsSaid(h: Hashes, s: Ledger) {
    forall id | id in s.jobs ::
      id == h.job(s.jobs[id].sender, s.jobs[id].nonce) && JobNew(s.jobs[id].sender, s.jobs[id].nonce) in s.log
  }

  lemma StepJobs(h: Hashes, s: Ledger, tx: Transaction)
    requires Inv(h, s) && JobsSaid(h, s)
    ensures JobsSaid(h, Step(h, s, tx))
  {
    hide Inv;
    hide Exec;
    var s' := Step(h, s, tx);
    StepFreezes(h, s, tx);
    forall id | id in s'.jobs
      ensures id == h.job(s'.jobs[id].sender, s'.jobs[id].nonce) && JobNew(s'.jobs[id].sender, s'.jobs[id].nonce) in s'.log
    {
      JobMade(h, s, tx, id);
    }
  }

  lemma JobMade(h: Hashes, s: Ledger, tx: Transaction, id: Id)
    requires id in Step(h, s, tx).jobs
    ensures var s' := Step(h, s, tx);
            var j := s'.jobs[id];
            || (id in s.jobs && s.jobs[id].sender == j.sender && s.jobs[id].nonce == j.nonce)
            || (id == h.job(j.sender, j.nonce) && s'.log == s.log + [JobNew(j.sender, j.nonce)])
  {
    hide Exec;
    if Exec(h, s, tx).Some? {
      if Edits(tx.call) { EditsOwn(h, s, tx); } else { OthersMake(h, s, tx); }
    }
  }

  lemma {:induction false} RunJobs(h: Hashes, oracle: Address, txs: seq<Transaction>)
    ensures Inv(h, Run(h, Deployed(oracle), txs)) && JobsSaid(h, Run(h, Deployed(oracle), txs))
  {
    hide Inv;
    hide Step;
    hide JobsSaid;
    if txs == [] {
      DeployedInv(h, oracle);
      DeployedJobs(h, oracle);
    } else {
      var s := Run(h, Deployed(oracle), txs[..|txs| - 1]);
      RunJobs(h, oracle, txs[..|txs| - 1]);
      StepKeeps(h, s, txs[|txs| - 1]);
      StepJobs(h, s, txs[|txs| - 1]);
    }
  }

  lemma DeployedJobs(h: Hashes, oracle: Address)
    ensures JobsSaid(h, Deployed(oracle))
  {
  }
}

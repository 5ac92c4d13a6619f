/** The Jobs contract as an object: storage updated in place, a revert restoring what it changed. */
module JobsContract {
  import opened Base
  import opened Escrow
  import opened EscrowMoney

  lemma {:induction false} CreditAllAppend(users: map<Address, User>, p: seq<Payment>, q: seq<Payment>)
    ensures CreditAll(users, p + q) == CreditAll(CreditAll(users, p), q)
    ensures CreditLog(users, p + q) == CreditLog(users, p) + CreditLog(CreditAll(users, p), q)
  {
    hide Credit;
    if q == [] {
      assert p + q == p;
    } else {
      CreditAllAppend(users, p, q[..|q| - 1]);
      assert (p + q)[..|p + q| - 1] == p + q[..|q| - 1];
    }
  }

  /** A refund only looks at the payments modulo 2^256, as the contract accumulates them. */
  lemma RefundWrap(users: map<Address, User>, sender: Address, price: uint64, paid: nat)
    ensures Refund(users, sender, price, U256(paid)) == Refund(users, sender, price, paid)
  {
    hide U256;
    hide UserAt;
    WrapMinus(price, paid);
  }

  lemma WrapTotals(workers: nat, managers: nat)
    ensures U256(U256(workers) + U256(managers)) == U256(workers + managers)
  {
    hide U256;
    WrapPlus(workers, U256(managers));
    WrapPlus(managers, workers);
  }

  lemma {:induction false} LockTasksFails(h: Hashes, tasks: map<Id, Task>, id: Id, k: nat, n: nat)
    requires k <= n && LockTasks(h, tasks, id, k).None?
    ensures LockTasks(h, tasks, id, n).None?
  {
    if k < n {
      LockTasksFails(h, tasks, id, k, n - 1);
    }
  }

  class Jobs {
    const h: Hashes
    var jobs: map<Id, Job>
    var tasks: map<Id, Task>
    var users: map<Address, User>
    var oracle: Address
    var log: seq<Event>
    var ether: nat

    function State(): Ledger
      reads this
    {
      Ledger(jobs, tasks, users, oracle, log, ether)
    }

    constructor (h: Hashes, sender: Address)
      ensures State() == Deployed(sender) && this.h == h
    {
      this.h := h;
      jobs, tasks, users, oracle, log, ether := map[], map[], map[], sender, [], 0;
    }

    /** What a call of `who` must leave behind, and whether it must succeed. */
    twostate predicate Did(ok: bool, who: Address, call: Call)
      reads this
    {
      && ok == Exec(h, old(State()), Transaction(who, call)).Some?
      && State() == Step(h, old(State()), Transaction(who, call))
    }

    method SendPendingMoney(who: Address, value: uint256) returns (ok: bool)
      modifies this
      ensures Did(ok, who, Call.SendPendingMoney(value))
    {
      var u := UserAt(users, who);
      ether := ether + value;
      users := users[who := u.(pending := U256(u.pending + value))];
      log := log + [PendingMoneyChanged(who, UserAt(users, who).pending)];
      ok := true;
    }

    method RecoverPendingMoney(who: Address, amount: uint256, accepted: bool) returns (ok: bool)
      modifies this
      ensures Did(ok, who, Call.RecoverPendingMoney(amount, accepted))
    {
      var u := UserAt(users, who);
      if u.pending < amount { return false; }
      var before := users;
      users := users[who := u.(pending := u.pending - amount)];
      if ether < amount || !accepted {
        users := before;
        return false;
      }
      ether := ether - amount;
      log := log + [PendingMoneyChanged(who, UserAt(users, who).pending)];
      ok := true;
    }

    method CreateDraft(who: Address) returns (ok: bool)
      modifies this
      ensures Did(ok, who, Call.CreateDraft)
    {
      hide FreeNonce;
      var before := users;
      var u := UserAt(users, who);
      var nonce: uint128 := u.nextNonce;
      var tries := TWO128;
      users := users[who := u.(nextNonce := U128(nonce + 1))];
      FreeNonceStep(h, jobs, who, nonce, tries);
      while JobId(h, who, nonce) in jobs && tries > 1
        invariant tries >= 1
        invariant jobs == old(jobs) && tasks == old(tasks) && log == old(log) && oracle == old(oracle) && ether == old(ether)
        invariant users == before[who := u.(nextNonce := U128(nonce + 1))]
        invariant FreeNonce(h, jobs, who, u.nextNonce, TWO128) == FreeNonce(h, jobs, who, nonce, tries)
        decreases tries
      {
        FreeNonceStep(h, jobs, who, nonce, tries);
        nonce := UserAt(users, who).nextNonce;
        users := users[who := UserAt(users, who).(nextNonce := U128(nonce + 1))];
        tries := tries - 1;
      }
      FreeNonceStep(h, jobs, who, nonce, tries);
      FreeNonceStep(h, jobs, who, U128(nonce + 1), 0);
      if JobId(h, who, nonce) in jobs {
        users := before;
        return false;
      }
      jobs := jobs[JobId(h, who, nonce) := NewDraft(who, nonce)];
      log := log + [JobNew(who, nonce)];
      ok := true;
    }

    /** `check_is_our_draft`, then one write to the draft. */
    method EditDraft(who: Address, id: Id, valid: bool, job: Job) returns (ok: bool)
      modifies this`jobs
      ensures ok == Edit(old(State()), who, id, valid, job).Some?
      ensures State() == if ok then Edit(old(State()), who, id, valid, job).value else old(State())
    {
      if !valid || id !in jobs || jobs[id].sender != who || !jobs[id].isDraft { return false; }
      jobs := jobs[id := job];
      ok := true;
    }

    method SetParameters(who: Address, id: Id, timeout: uint64, redundancy: uint64, maxFailures: uint64) returns (ok: bool)
      modifies this
      ensures Did(ok, who, Call.SetParameters(id, timeout, redundancy, maxFailures))
    {
      ok := EditDraft(who, id, timeout > 9 && redundancy > 0,
                      JobAt(jobs, id).(timeout := timeout, redundancy := redundancy, maxFailures := maxFailures));
    }

    method SetOtherData(who: Address, id: Id, data: Bytes) returns (ok: bool)
      modifies this
      ensures Did(ok, who, Call.SetOtherData(id, data))
    {
      ok := EditDraft(who, id, true, JobAt(jobs, id).(otherData := data));
    }

    method ResetArguments(who: Address, id: Id) returns (ok: bool)
      modifies this
      ensures Did(ok, who, Call.ResetArguments(id))
    {
      ok := EditDraft(who, id, true, JobAt(jobs, id).(arguments := []));
    }

    method PushArgument(who: Address, id: Id, argument: Bytes) returns (ok: bool)
      modifies this
      ensures Did(ok, who, Call.PushArgument(id, argument))
    {
      var j := JobAt(jobs, id);
      ok := EditDraft(who, id, |argument| > 0, j.(arguments := j.arguments + [argument]));
    }

    method SetWorkerParameters(who: Address, id: Id, maxWorkerPrice: uint64, maxNetworkUsage: uint64, maxNetworkPrice: uint64)
      returns (ok: bool)
      modifies this
      ensures Did(ok, who, Call.SetWorkerParameters(id, maxWorkerPrice, maxNetworkUsage, maxNetworkPrice))
    {
      ok := EditDraft(who, id, maxWorkerPrice > 0 && maxNetworkPrice > 0,
                      JobAt(jobs, id).(maxWorkerPrice := maxWorkerPrice, maxNetworkUsage := maxNetworkUsage,
                                       maxNetworkPrice := maxNetworkPrice));
    }

    method SetManagementParameters(who: Address, id: Id, minCheckingInterval: uint64, managementPrice: uint64)
      returns (ok: bool)
      modifies this
      ensures Did(ok, who, Call.SetManagementParameters(id, minCheckingInterval, managementPrice))
    {
      ok := EditDraft(who, id, minCheckingInterval > 14 && managementPrice > 0,
                      JobAt(jobs, id).(minCheckingInterval := minCheckingInterval, managementPrice := managementPrice));
    }

    method DeleteDraft(who: Address, id: Id) returns (ok: bool)
      modifies this
      ensures Did(ok, who, Call.DeleteDraft(id))
    {
      if id !in jobs || jobs[id].sender != who || !jobs[id].isDraft { return false; }
      jobs := jobs - {id};
      ok := true;
    }

    /** The loop of `lock`: one new task an argument, or a collision. */
    method CreateTasks(id: Id, n: nat) returns (ok: bool)
      modifies this`tasks, this`log
      ensures ok == LockTasks(h, old(tasks), id, n).Some?
      ensures ok ==> LockTasks(h, old(tasks), id, n) == Some(tasks) && log == old(log) + LockLog(h, id, n)
    {
      var i := 0;
      while i < n
        invariant 0 <= i <= n
        invariant LockTasks(h, old(tasks), id, i) == Some(tasks)
        invariant log == old(log) + LockLog(h, id, i)
      {
        var taskId := TaskId(h, id, i);
        if taskId in tasks {
          LockTasksFails(h, old(tasks), id, i + 1, n);
          return false;
        }
        tasks := tasks[taskId := FreshTask(id, i)];
        log := log + [TaskPending(taskId)];
        assert LockLog(h, id, i + 1) == LockLog(h, id, i) + [TaskPending(taskId)];
        i := i + 1;
      }
      ok := true;
    }

    method Lock(who: Address, id: Id) returns (ok: bool)
      modifies this
      ensures Did(ok, who, Call.Lock(id))
    {
      hide MaxPrice;
      hide U256;
      hide LockTasks;
      hide DraftReady;
      if id !in jobs || jobs[id].sender != who || !jobs[id].isDraft { return false; }
      if !DraftReady(jobs[id], UserAt(users, who).pending) { return false; }
      var before, tasks0, log0 := jobs, tasks, log;
      jobs := jobs[id := jobs[id].(isDraft := false)];
      var created := false;
      if |jobs[id].arguments| < TWO128 {
        // otherwise the 128-bit counter comes round to the first task, a collision
        created := CreateTasks(id, |jobs[id].arguments|);
      }
      if !created {
        jobs, tasks, log := before, tasks0, log0;
        return false;
      }
      var price: int := MaxPrice(jobs[id]);
      var u := UserAt(users, who);
      users := users[who := User(u.nextNonce, u.locked, U256(u.pending - price))];
      u := UserAt(users, who);
      users := users[who := User(u.nextNonce, U256(u.locked + price), u.pending)];
      log := log + [PendingMoneyChanged(who, UserAt(users, who).pending)];
      ok := true;
    }

    method PushManager(who: Address, taskId: Id, manager: Address) returns (ok: bool)
      modifies this
      ensures Did(ok, who, Call.PushManager(taskId, manager))
    {
      if taskId !in tasks || who != oracle || tasks[taskId].state != Incomplete { return false; }
      var task := tasks[taskId];
      if |task.managers| >= ManagersBound(JobAt(jobs, task.jobId)) { return false; }
      tasks := tasks[taskId := task.(managers := task.managers + [manager])];
      ok := true;
    }

    /** Pays every listed manager the fee of the job, and returns what that cost. */
    method PayManagers(taskId: Id) returns (total: uint256)
      requires taskId in tasks
      modifies this`users, this`log
      ensures var pays := FailurePays(old(State()), taskId);
              && users == CreditAll(old(users), pays)
              && log == old(log) + CreditLog(old(users), pays)
              && total == U256(SumPays(pays))
    {
      hide Credit;
      hide U256;
      var j := JobAt(jobs, tasks[taskId].jobId);
      var managers := tasks[taskId].managers;
      ghost var pays := ManagerPays(j, managers);
      var i := 0;
      while i < |managers|
        invariant 0 <= i <= |managers|
        invariant users == CreditAll(old(users), pays[..i])
        invariant log == old(log) + CreditLog(old(users), pays[..i])
      {
        assert pays[..i + 1][..i] == pays[..i];
        users := Credit(users, Payment(managers[i], j.managementPrice));
        log := log + [PendingMoneyChanged(managers[i], UserAt(users, managers[i]).pending)];
        i := i + 1;
      }
      assert pays[..i] == pays;
      SumManagerPays(j, managers);
      total := U256(j.managementPrice * |managers|);
    }

    method IsJobCompleted(jobId: Id) returns (r: Option<bool>)
      ensures r == Escrow.IsJobCompleted(h, State(), jobId)
    {
      if jobId !in jobs { return None; }
      var n := |jobs[jobId].arguments|;
      var i := 0;
      while i < n
        invariant 0 <= i <= n
        invariant AllDone(h, tasks, jobId, i)
      {
        if StateAt(tasks, TaskId(h, jobId, i)) == Incomplete { return Some(false); }
        i := i + 1;
      }
      r := Some(true);
    }

    /** Unlocks the price of a task of `j` and refunds what `paid`, wrapped, left of it. */
    method RefundSender(j: Job, ghost total: nat, paid: uint256)
      requires paid == U256(total)
      modifies this`users
      ensures users == Refund(old(users), j.sender, PricePerTask(j), total)
    {
      hide PricePerTask;
      var price: int := PricePerTask(j);
      var u := UserAt(users, j.sender);
      RefundWrap(users, j.sender, price, total);
      users := users[j.sender := User(u.nextNonce, U256(u.locked - price), u.pending)];
      u := UserAt(users, j.sender);
      users := users[j.sender := User(u.nextNonce, u.locked, U256(u.pending + U256(price - paid)))];
    }

    method SayJobEnd(jobId: Id)
      requires jobId in jobs
      modifies this`log
      ensures log == old(log) + (if AllDone(h, tasks, jobId, |jobs[jobId].arguments|) then [JobCompleted(jobId)] else [])
    {
      var ended := IsJobCompleted(jobId);
      if ended == Some(true) {
        log := log + [JobCompleted(jobId)];
      }
    }

    method SetDefinitelyFailed(who: Address, taskId: Id, reason: ErrorKind) returns (ok: bool)
      modifies this
      ensures Did(ok, who, Call.SetDefinitelyFailed(taskId, reason))
    {
      hide PricePerTask;
      hide U256;
      hide CreditAll;
      hide CreditLog;
      hide SumPays;
      hide Refund;
      hide AllDone;
      if who != oracle || taskId !in tasks || tasks[taskId].state != Incomplete { return false; }
      var jobId := tasks[taskId].jobId;
      if |tasks[taskId].managers| == 0 || JobAt(jobs, jobId).minCheckingInterval == 0 || jobId !in jobs { return false; }
      ghost var pays := FailurePays(State(), taskId);
      tasks := tasks[taskId := tasks[taskId].(state := DefinetelyFailed, reason := reason)];
      var paid := PayManagers(taskId);
      RefundSender(jobs[jobId], SumPays(pays), paid);
      log := log + [TaskDefinetelyFailed(taskId, reason)];
      SayJobEnd(jobId);
      ok := true;
    }

    /** The payment loop of `set_completed`. */
    method PayWorkers(j: Job, workers: seq<Address>, workerPrices: seq<uint64>, networkPrices: seq<uint64>)
      returns (total: uint256)
      requires |workers| == |workerPrices| == |networkPrices|
      modifies this`users, this`log
      ensures var pays := WorkerPays(j, workers, workerPrices, networkPrices);
              && users == CreditAll(old(users), pays)
              && log == old(log) + CreditLog(old(users), pays)
              && total == U256(SumPays(pays))
    {
      hide Credit;
      hide U256;
      hide WorkerCost;
      ghost var pays := WorkerPays(j, workers, workerPrices, networkPrices);
      total := 0;
      WrapTurns(0);
      var i := 0;
      while i < |workers|
        invariant 0 <= i <= |workers|
        invariant users == CreditAll(old(users), pays[..i])
        invariant log == old(log) + CreditLog(old(users), pays[..i])
        invariant total == U256(SumPays(pays[..i]))
      {
        assert pays[..i + 1][..i] == pays[..i];
        var cost := WorkerCost(j, workerPrices[i], networkPrices[i]);
        users := Credit(users, Payment(workers[i], cost));
        WrapPlus(SumPays(pays[..i]), cost);
        total := U256(total + cost);
        log := log + [PendingMoneyChanged(workers[i], UserAt(users, workers[i]).pending)];
        i := i + 1;
      }
      assert pays[..i] == pays;
    }

    method SetCompleted(who: Address, taskId: Id, result: Bytes, workers: seq<Address>,
                        workerPrices: seq<uint64>, networkPrices: seq<uint64>) returns (ok: bool)
      modifies this
      ensures Did(ok, who, Call.SetCompleted(taskId, result, workers, workerPrices, networkPrices))
    {
      hide PricePerTask;
      hide U256;
      hide CreditAll;
      hide CreditLog;
      hide SumPays;
      hide WorkerPays;
      hide Refund;
      hide AllDone;
      if who != oracle || taskId !in tasks || tasks[taskId].state != Incomplete || |tasks[taskId].result| != 0 { return false; }
      if |result| == 0 || |workers| != |workerPrices| || |workers| != |networkPrices| { return false; }
      var jobId := tasks[taskId].jobId;
      if |workers| != JobAt(jobs, jobId).redundancy { return false; }
      if |tasks[taskId].managers| == 0 || JobAt(jobs, jobId).minCheckingInterval == 0 || jobId !in jobs { return false; }
      tasks := tasks[taskId := tasks[taskId].(state := Completed, result := result)];
      var j := jobs[jobId];
      var total := PayBoth(j, taskId, workers, workerPrices, networkPrices);
      ghost var pays := CompletionPays(old(State()), taskId, workers, workerPrices, networkPrices);
      RefundSender(j, SumPays(pays), total);
      log := log + [PendingMoneyChanged(j.sender, UserAt(users, j.sender).pending)];
      log := log + [TaskCompleted(taskId, result)];
      SayJobEnd(jobId);
      ok := true;
    }

    /** Pays the workers, then the managers, and returns the wrapped sum. */
    method PayBoth(j: Job, taskId: Id, workers: seq<Address>, workerPrices: seq<uint64>, networkPrices: seq<uint64>)
      returns (total: uint256)
      requires taskId in tasks && tasks[taskId].jobId in jobs && j == jobs[tasks[taskId].jobId]
      requires |workers| == |workerPrices| == |networkPrices|
      modifies this`users, this`log
      ensures var pays := WorkerPays(j, workers, workerPrices, networkPrices) + FailurePays(old(State()), taskId);
              && users == CreditAll(old(users), pays)
              && log == old(log) + CreditLog(old(users), pays)
              && total == U256(SumPays(pays))
    {
      hide U256;
      hide CreditAll;
      hide CreditLog;
      hide SumPays;
      hide WorkerPays;
      ghost var wp := WorkerPays(j, workers, workerPrices, networkPrices);
      ghost var mp := FailurePays(State(), taskId);
      CreditAllAppend(users, wp, mp);
      SumPaysAppend(wp, mp);
      var workersTotal: int := PayWorkers(j, workers, workerPrices, networkPrices);
      var managersTotal: int := PayManagers(taskId);
      WrapTotals(SumPays(wp), SumPays(mp));
      total := U256(workersTotal + managersTotal);
    }
  }

  lemma FreeNonceStep(h: Hashes, jobs: map<Id, Job>, who: Address, nonce: uint128, tries: nat)
    ensures FreeNonce(h, jobs, who, nonce, tries)
            == if tries == 0 then None
               else if JobId(h, who, nonce) !in jobs then Some(nonce)
               else FreeNonce(h, jobs, who, U128(nonce + 1), tries - 1)
  {
  }
}

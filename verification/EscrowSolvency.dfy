/**
 When the contract holds exactly the ether its accounts add up to.

 The refund of a finished task is an unchecked subtraction, and `push_manager` does not keep the
 number of paid managers within what the price provides for. So money is created out of nothing
 exactly when the payments of a task exceed its price by more than the sender has pending.
 */
module EscrowSolvency {
  import opened Base
  import opened Escrow
  import opened EscrowSafety
  import opened EscrowMoney
  import opened EscrowRuns

  /** Far above the ether in existence (below 2^87 wei). */
  const MAX_ETHER: nat := TWO128

  ghost predicate Solvent(h: Hashes, s: Ledger) {
    && TablesOk(h, s.jobs, s.tasks)
    && (forall a :: UserAt(s.users, a).locked == Owed(h, s.jobs, s.tasks, a))
    && Total(s.users) == s.ether <= MAX_ETHER
  }

  /** The payments a successful call makes for a task. */
  function Payout(s: Ledger, call: Call): Option<(Id, seq<Payment>)> {
    match call
    case SetDefinitelyFailed(id, _) => if id in s.tasks then Some((id, FailurePays(s, id))) else None
    case SetCompleted(id, _, workers, workerPrices, networkPrices) =>
      if id in s.tasks && |workers| == |workerPrices| == |networkPrices|
      then Some((id, CompletionPays(s, id, workers, workerPrices, networkPrices)))
      else None
    case _ => None
  }

  ghost predicate PaysCovered(s: Ledger, id: Id, pays: seq<Payment>)
    requires id in s.tasks
  {
    var j := JobAt(s.jobs, s.tasks[id].jobId);
    UserAt(s.users, j.sender).pending + PaidTo(pays, j.sender) + PricePerTask(j) >= SumPays(pays)
  }

  /** Can be told before the call: what the task pays out is within its price and the sender's money. */
  ghost predicate Covered(s: Ledger, call: Call) {
    match Payout(s, call)
    case Some(p) => PaysCovered(s, p.0, p.1)
    case None => call.SendPendingMoney? ==> s.ether + call.value <= MAX_ETHER
  }

  // ---------------------------------------------------------------- bounds of one payout

  lemma SumOfWords(pays: seq<Payment>)
    ensures SumPays(pays) <= |pays| * TWO64
  {
    SumPaysBound(pays, TWO64);
  }

  lemma PayoutBounded(h: Hashes, s: Ledger, tx: Transaction)
    requires TablesOk(h, s.jobs, s.tasks) && Exec(h, s, tx).Some? && Payout(s, tx.call).Some?
    ensures SumPays(Payout(s, tx.call).value.1) <= 2 * TWO128
  {
    hide Settle;
    var (id, pays) := Payout(s, tx.call).value;
    assert TaskOk(h, s.jobs, id, s.tasks[id]);
    assert |pays| <= 2 * TWO64;
    SumOfWords(pays);
  }

  // ---------------------------------------------------------------- finishing a task

  lemma SettleExact(h: Hashes, s: Ledger, id: Id, task: Task, pays: seq<Payment>, sayRefund: bool, said: Event)
    requires Solvent(h, s) && id in s.tasks && Closes(s.tasks[id], task)
    requires Settle(h, s, id, task, pays, sayRefund, said).Some? && SumPays(pays) <= 2 * TWO128
    ensures Solvent(h, Settle(h, s, id, task, pays, sayRefund, said).value) <==> PaysCovered(s, id, pays)
  {
    hide TablesOk;
    hide PricePerTask;
    hide Total;
    hide CreditAll;
    hide CreditLog;
    hide Refund;
    hide SumPays;
    hide PaidTo;
    hide AllDone;
    hide Owed;
    hide UserAt;
    CloseKeepsTables(h, s.jobs, s.tasks, id, task);
    SettleLocks(h, s, id, task, pays);
    SettleTotal(h, s, id, task, pays);
  }

  lemma SettleLocks(h: Hashes, s: Ledger, id: Id, task: Task, pays: seq<Payment>)
    requires Solvent(h, s) && id in s.tasks && Closes(s.tasks[id], task) && task.jobId in s.jobs
    ensures var j := s.jobs[task.jobId];
            var users := Refund(CreditAll(s.users, pays), j.sender, PricePerTask(j), SumPays(pays));
            forall a :: UserAt(users, a).locked == Owed(h, s.jobs, s.tasks[id := task], a)
  {
    hide Owed;
    hide TablesOk;
    hide PricePerTask;
    hide Total;
    hide CreditAll;
    hide SumPays;
    hide PaidTo;
    hide U256;
    var j := s.jobs[task.jobId];
    var users := Refund(CreditAll(s.users, pays), j.sender, PricePerTask(j), SumPays(pays));
    SenderOwes(h, s, id, task);
    WrapTurns(UserAt(s.users, j.sender).locked - PricePerTask(j));
    forall a ensures UserAt(users, a).locked == Owed(h, s.jobs, s.tasks[id := task], a) {
      CreditAllGives(s.users, pays, a);
      CloseOwes(h, s.jobs, s.tasks, id, task, a);
    }
  }

  lemma SettleTotal(h: Hashes, s: Ledger, id: Id, task: Task, pays: seq<Payment>)
    requires Solvent(h, s) && id in s.tasks && Closes(s.tasks[id], task) && task.jobId in s.jobs
    requires SumPays(pays) <= 2 * TWO128
    ensures var j := s.jobs[task.jobId];
            Total(Refund(CreditAll(s.users, pays), j.sender, PricePerTask(j), SumPays(pays))) == Total(s.users)
            <==> PaysCovered(s, id, pays)
  {
    hide TablesOk;
    hide Owed;
    hide PricePerTask;
    hide Total;
    hide CreditAll;
    hide Refund;
    hide SumPays;
    hide PaidTo;
    hide UserAt;
    hide U256;
    hide Held;
    var j := s.jobs[task.jobId];
    SenderOwes(h, s, id, task);
    CreditAllTotal(s.users, pays);
    CreditAllGives(s.users, pays, j.sender);
    PaidWithinSum(pays, j.sender);
    PendingWithinTotal(s.users, j.sender);
    WrapTurns(UserAt(s.users, j.sender).pending + PaidTo(pays, j.sender));
    RefundExactIff(CreditAll(s.users, pays), j.sender, PricePerTask(j), SumPays(pays));
  }

  lemma PendingWithinTotal(users: map<Address, User>, a: Address)
    ensures UserAt(users, a).pending <= Total(users)
  {
    hide Total;
    hide UserAt;
    HeldWithinTotal(users, a);
  }

  /** An incomplete task's price is part of what its sender owes, so unlocking it never underflows. */
  lemma SenderOwes(h: Hashes, s: Ledger, id: Id, task: Task)
    requires Solvent(h, s) && id in s.tasks && Closes(s.tasks[id], task) && task.jobId in s.jobs
    ensures UserAt(s.users, s.jobs[task.jobId].sender).locked >= PricePerTask(s.jobs[task.jobId])
  {
    hide PricePerTask;
    hide Total;
    var j := s.jobs[task.jobId];
    CloseOwes(h, s.jobs, s.tasks, id, task, j.sender);
    OwedNonNegative(h, s.jobs, s.tasks[id := task], j.sender);
  }

  lemma OwedNonNegative(h: Hashes, jobs: map<Id, Job>, tasks: map<Id, Task>, a: Address)
    ensures Owed(h, jobs, tasks, a) >= 0
  {
    hide Sum;
    var dues := Dues(h, jobs, tasks, a);
    forall id | id in dues ensures dues[id] >= 0 {
      assert dues[id] == Due(PricePerTask(jobs[id]), OpenTasks(h, tasks, id, jobs[id]));
      DueNonNegative(PricePerTask(jobs[id]), OpenTasks(h, tasks, id, jobs[id]));
    }
    SumNonNegative(dues);
  }

  lemma DueNonNegative(price: nat, open: nat)
    ensures Due(price, open) >= 0
  {
  }

  // ---------------------------------------------------------------- every other transaction

  lemma LockExact(h: Hashes, s: Ledger, who: Address, id: Id)
    requires Solvent(h, s) && ExecLock(h, s, who, id).Some?
    ensures Solvent(h, ExecLock(h, s, who, id).value)
  {
    hide Owed;
    hide TablesOk;
    hide PricePerTask;
    hide MaxPrice;
    hide Due;
    hide U256;
    hide Total;
    hide Held;
    hide UserAt;
    var s' := ExecLock(h, s, who, id).value;
    var u := UserAt(s.users, who);
    var j := s.jobs[id];
    SamePrice(j, s'.jobs[id]);
    var price := MaxPrice(j);
    var u' := User(u.nextNonce, U256(u.locked + price), U256(u.pending - price));
    assert s'.users == s.users[who := u'];
    LockKeepsTables(h, s.jobs, s.tasks, id);
    HeldWithinTotal(s.users, who);
    TotalUpdate(s.users, who, u');
    LockHeldExact(u, u', price);
    LockPriceExact(j);
    forall a ensures UserAt(s'.users, a).locked == Owed(h, s'.jobs, s'.tasks, a) {
      LockOwes(h, s.jobs, s.tasks, id, a);
      ReadWritten(s.users, who, u', a);
    }
  }

  lemma ReadWritten(users: map<Address, User>, a: Address, u: User, b: Address)
    ensures UserAt(users[a := u], b) == if a == b then u else UserAt(users, b)
  {
  }

  lemma LockHeldExact(u: User, u': User, price: uint256)
    requires u' == User(u.nextNonce, U256(u.locked + price), U256(u.pending - price))
    requires u.pending >= price && Held(u) <= MAX_ETHER
    ensures Held(u') == Held(u) && u'.locked == u.locked + price
  {
  }

  lemma LockPriceExact(j: Job)
    requires |j.arguments| < TWO128
    ensures MaxPrice(j) == Due(PricePerTask(j), |j.arguments|)
  {
    hide PricePerTask;
    var p, n := PricePerTask(j), |j.arguments|;
    WithinProduct(p, n);
    assert MaxPrice(j) == U256(p * n);
  }

  lemma WithinProduct(p: uint64, n: nat)
    requires n < TWO128
    ensures 0 <= p * n < TWO64 * TWO128
  {
    NoLess(TWO64 - p, n);
    NoLess(p, n);
    Distribute(TWO64 - p, p, n);
  }

  lemma NoLess(x: nat, y: nat)
    ensures x * y >= 0
  {
  }

  lemma PendingExact(h: Hashes, s: Ledger, s': Ledger, who: Address, pending: uint256, change: int)
    requires Solvent(h, s) && s'.jobs == s.jobs && s'.tasks == s.tasks && s'.ether == s.ether + change
    requires pending == UserAt(s.users, who).pending + change
    requires s'.users == s.users[who := UserAt(s.users, who).(pending := pending)]
    ensures Solvent(h, s') <==> s'.ether <= MAX_ETHER
  {
    hide Owed;
    hide TablesOk;
    hide Total;
    hide UserAt;
    var u := UserAt(s.users, who);
    var u' := u.(pending := pending);
    TotalUpdate(s.users, who, u');
    assert Held(u') == Held(u) + change;
    forall a ensures UserAt(s'.users, a).locked == UserAt(s.users, a).locked {
      ReadWritten(s.users, who, u', a);
    }
  }

  lemma SendExact(h: Hashes, s: Ledger, who: Address, value: uint256)
    requires Solvent(h, s)
    ensures Solvent(h, ExecSend(s, who, value)) <==> s.ether + value <= MAX_ETHER
  {
    hide TablesOk;
    hide Owed;
    hide Total;
    hide U256;
    var pending := UserAt(s.users, who).pending;
    HeldWithinTotal(s.users, who);
    if s.ether + value <= MAX_ETHER {
      WrapTurns(pending + value);
      PendingExact(h, s, ExecSend(s, who, value), who, pending + value, value);
    }
  }

  lemma DraftExact(h: Hashes, s: Ledger, s': Ledger)
    requires Solvent(h, s) && DraftChange(s.jobs, s'.jobs) && s'.tasks == s.tasks && s'.ether == s.ether
    requires forall a :: UserAt(s'.users, a).locked == UserAt(s.users, a).locked
    requires Total(s'.users) == Total(s.users)
    ensures Solvent(h, s')
  {
    hide Owed;
    hide Total;
    DraftChangeKeeps(h, s.jobs, s.tasks, s'.jobs);
  }

  lemma CreateExact(h: Hashes, s: Ledger, who: Address)
    requires Solvent(h, s) && ExecCreate(h, s, who).Some?
    ensures Solvent(h, ExecCreate(h, s, who).value)
  {
    hide Solvent;
    hide Total;
    hide FreeNonce;
    hide JobId;
    var s' := ExecCreate(h, s, who).value;
    FreeNonceIsFree(h, s.jobs, who, UserAt(s.users, who).nextNonce, TWO128);
    CreateTotal(s.users, who, UserAt(s'.users, who).nextNonce);
    DraftExact(h, s, s');
  }

  /** Transactions on drafts change a draft only, and no account. */
  lemma EditCallDraftChange(h: Hashes, s: Ledger, tx: Transaction)
    requires TablesOk(h, s.jobs, s.tasks) && Exec(h, s, tx).Some?
    requires tx.call.SetParameters? || tx.call.SetOtherData? || tx.call.ResetArguments? || tx.call.PushArgument?
             || tx.call.SetWorkerParameters? || tx.call.SetManagementParameters? || tx.call.DeleteDraft?
    ensures var s' := Step(h, s, tx);
            DraftChange(s.jobs, s'.jobs) && s'.tasks == s.tasks && s'.ether == s.ether && s'.users == s.users
  {
    assert forall id | id in s.jobs :: JobOk(h, s.tasks, id, s.jobs[id]);
  }

  lemma ManagersExact(h: Hashes, s: Ledger, who: Address, id: Id, manager: Address)
    requires Solvent(h, s) && ExecPushManager(s, who, id, manager).Some?
    ensures Solvent(h, ExecPushManager(s, who, id, manager).value)
  {
    hide Owed;
    hide OpenTasks;
    hide TablesOk;
    hide Total;
    ManagersKeep(h, s.jobs, s.tasks, id, s.tasks[id].managers + [manager]);
  }

  /** A successful transaction keeps the contract solvent exactly when it is covered. */
  lemma StepSolventIff(h: Hashes, s: Ledger, tx: Transaction)
    requires Solvent(h, s) && Exec(h, s, tx).Some?
    ensures Solvent(h, Step(h, s, tx)) <==> Covered(s, tx.call)
  {
    hide Solvent;
    hide ExecLock;
    hide ExecCreate;
    hide Settle;
    hide PaysCovered;
    SolventTables(h, s);
    if Payout(s, tx.call).Some? {
      PayoutBounded(h, s, tx);
    }
    match tx.call
    case SendPendingMoney(value) => SendExact(h, s, tx.sender, value);
    case RecoverPendingMoney(amount, accepted) =>
      SolventTotal(h, s);
      PendingExact(h, s, Step(h, s, tx), tx.sender, UserAt(s.users, tx.sender).pending - amount, 0 - amount);
    case CreateDraft => CreateExact(h, s, tx.sender);
    case Lock(id) => LockExact(h, s, tx.sender, id);
    case PushManager(id, manager) => ManagersExact(h, s, tx.sender, id, manager);
    case SetDefinitelyFailed(id, reason) =>
      SettleExact(h, s, id, s.tasks[id].(state := DefinetelyFailed, reason := reason), FailurePays(s, id),
                  false, TaskDefinetelyFailed(id, reason));
    case SetCompleted(id, result, workers, workerPrices, networkPrices) =>
      SettleExact(h, s, id, s.tasks[id].(state := Completed, result := result),
                  CompletionPays(s, id, workers, workerPrices, networkPrices), true, TaskCompleted(id, result));
    case _ =>
      EditCallDraftChange(h, s, tx);
      DraftExact(h, s, Step(h, s, tx));
  }

  lemma SolventTables(h: Hashes, s: Ledger)
    requires Solvent(h, s)
    ensures TablesOk(h, s.jobs, s.tasks)
  {
  }

  lemma SolventTotal(h: Hashes, s: Ledger)
    requires Solvent(h, s)
    ensures Total(s.users) == s.ether <= MAX_ETHER
  {
  }

  // ---------------------------------------------------------------- runs

  /** Every successful transaction of the run is covered at the moment it executes. */
  ghost predicate CoveredRun(h: Hashes, s: Ledger, txs: seq<Transaction>) {
    txs != [] ==>
      var front, last := txs[..|txs| - 1], txs[|txs| - 1];
      && CoveredRun(h, s, front)
      && (Exec(h, Run(h, s, front), last).Some? ==> Covered(Run(h, s, front), last.call))
  }

  /** Over a covered run the accounts always add up to the ether the contract holds, to the wei. */
  lemma {:induction false} RunSolvent(h: Hashes, oracle: Address, txs: seq<Transaction>)
    requires CoveredRun(h, Deployed(oracle), txs)
    ensures Solvent(h, Run(h, Deployed(oracle), txs))
  {
    if txs == [] {
      DeployedSolvent(h, oracle);
    } else {
      hide Solvent;
      hide Exec;
      hide Covered;
      var front, last := txs[..|txs| - 1], txs[|txs| - 1];
      RunSolvent(h, oracle, front);
      if Exec(h, Run(h, Deployed(oracle), front), last).Some? {
        StepSolventIff(h, Run(h, Deployed(oracle), front), last);
      }
    }
  }

  lemma DeployedSolvent(h: Hashes, oracle: Address)
    ensures Solvent(h, Deployed(oracle))
  {
    var s := Deployed(oracle);
    forall a ensures UserAt(s.users, a).locked == Owed(h, s.jobs, s.tasks, a) {
      assert Dues(h, s.jobs, s.tasks, a) == map[];
    }
    assert Holdings(s.users) == map[];
  }

  /** A solvent contract can pay out any pending balance: the transfer is never short of ether. */
  lemma WithdrawalsSucceed(h: Hashes, s: Ledger, who: Address, amount: uint256)
    requires Solvent(h, s) && amount <= UserAt(s.users, who).pending
    ensures ExecRecover(s, who, amount, true).Some?
  {
    hide TablesOk;
    hide Owed;
    hide Total;
    hide UserAt;
    PendingWithinTotal(s.users, who);
  }

  // ---------------------------------------------------------------- payments within the price

  /** The price formula over the integers, without wrapping. */
  function ExactPrice(j: Job): nat
    requires j.minCheckingInterval > 0
  {
    FullPrice(j.timeout * j.maxWorkerPrice, j.maxNetworkUsage * j.maxNetworkPrice, j.redundancy,
              j.managementPrice, j.redundancy + j.maxFailures, Checks(j))
  }

  function FullPrice(time: nat, network: nat, redundancy: nat, fee: nat, runs: nat, checks: nat): nat {
    (time + network) * redundancy + fee * runs * checks
  }

  function Workers(j: Job): nat {
    j.timeout * j.maxWorkerPrice + j.maxNetworkUsage * j.maxNetworkPrice
  }

  function Checks(j: Job): nat
    requires j.minCheckingInterval > 0
  {
    4 + j.timeout / j.minCheckingInterval
  }

  /** How many managers the price provides for. */
  function PaidManagers(j: Job): nat
    requires j.minCheckingInterval > 0
  {
    (j.redundancy + j.maxFailures) * Checks(j)
  }

  /** The contract's price is the formula's, wrapped once. */
  lemma PriceWrapsOnce(j: Job)
    requires j.minCheckingInterval > 0
    ensures PricePerTask(j) == U64(ExactPrice(j))
  {
    hide WrappedPrice;
    hide FullPrice;
    hide U64;
    WrapPrice(j.timeout * j.maxWorkerPrice, j.maxNetworkUsage * j.maxNetworkPrice, j.redundancy,
              j.managementPrice, j.redundancy + j.maxFailures, Checks(j));
  }

  /** Wrapping the intermediate results does not change the wrapped price. */
  lemma WrapPrice(a: nat, b: nat, redundancy: nat, fee: nat, r: nat, t: nat)
    ensures WrappedPrice(a, b, redundancy, fee, r, t) == U64(FullPrice(a, b, redundancy, fee, r, t))
  {
    hide U64;
    WrapSum(a, b);
    WrapTimes(a + b, redundancy);
    WrapFee(fee, r, t);
    WrapSum((a + b) * redundancy, fee * r * t);
  }

  lemma WrapFee(fee: nat, r: nat, t: nat)
    ensures U64(U64(fee * U64(r)) * U64(t)) == U64(fee * r * t)
  {
    hide U64;
    WrapTimes(r, fee);
    Swap(fee, U64(r));
    Swap(fee, r);
    WrapTimes(fee * r, U64(t));
    WrapTimes(t, fee * r);
    Swap(fee * r, U64(t));
    Swap(fee * r, t);
  }

  lemma Swap(x: int, y: int)
    ensures x * y == y * x
  {
  }

  lemma WrapSum(a: nat, b: nat)
    ensures U64(U64(a) + U64(b)) == U64(a + b)
  {
  }

  /** One worker's cost is within what the price provides for one replica. */
  lemma WorkerCostBound(j: Job, workerPrice: uint64, networkPrice: uint64)
    requires workerPrice <= j.maxWorkerPrice && networkPrice <= j.maxNetworkPrice
    ensures WorkerCost(j, workerPrice, networkPrice) <= Workers(j)
  {
    var a, b := workerPrice * j.timeout, networkPrice * j.maxNetworkUsage;
    WrapShrinks(a);
    WrapShrinks(b);
    WrapShrinks(U64(a) + U64(b));
    TimesMonotone(workerPrice, j.maxWorkerPrice, j.timeout);
    TimesMonotone(networkPrice, j.maxNetworkPrice, j.maxNetworkUsage);
  }

  lemma WrapShrinks(a: nat)
    ensures U64(a) <= a
  {
  }

  lemma TimesMonotone(x: nat, y: nat, z: nat)
    requires x <= y
    ensures x * z <= y * z && z * x <= z * y
  {
    Distribute(y - x, x, z);
    assert (y - x) * z >= 0;
  }

  /** Prices accepted within the maxima and as many managers as the price provides for. */
  ghost predicate WithinMaxima(j: Job, managers: nat, workerPrices: seq<uint64>, networkPrices: seq<uint64>)
    requires j.minCheckingInterval > 0
  {
    && managers <= PaidManagers(j)
    && |workerPrices| == |networkPrices| <= j.redundancy
    && (forall i | 0 <= i < |workerPrices| :: workerPrices[i] <= j.maxWorkerPrice)
    && (forall i | 0 <= i < |networkPrices| :: networkPrices[i] <= j.maxNetworkPrice)
  }

  /** Then the payments of a task never exceed its price, and the refund never underflows. */
  lemma PayoutWithinPrice(j: Job, managers: seq<Address>, workers: seq<Address>,
                          workerPrices: seq<uint64>, networkPrices: seq<uint64>)
    requires j.minCheckingInterval > 0 && ExactPrice(j) < TWO64
    requires |workers| == |workerPrices| == |networkPrices|
    requires WithinMaxima(j, |managers|, workerPrices, networkPrices)
    ensures SumPays(WorkerPays(j, workers, workerPrices, networkPrices) + ManagerPays(j, managers)) <= PricePerTask(j)
  {
    hide U64;
    hide Workers;
    hide Checks;
    hide PaidManagers;
    hide ExactPrice;
    hide WorkerCost;
    hide PricePerTask;
    hide SumPays;
    var wp := WorkerPays(j, workers, workerPrices, networkPrices);
    SumPaysAppend(wp, ManagerPays(j, managers));
    SumManagerPays(j, managers);
    forall i | 0 <= i < |wp| ensures wp[i].amount <= Workers(j) {
      WorkerCostBound(j, workerPrices[i], networkPrices[i]);
    }
    SumPaysBound(wp, Workers(j));
    PriceProvides(j, |wp|, |managers|);
    PriceWrapsOnce(j);
    WrapSmall(ExactPrice(j));
  }

  lemma PriceParts(j: Job)
    requires j.minCheckingInterval > 0
    ensures ExactPrice(j) == Workers(j) * j.redundancy + j.managementPrice * (j.redundancy + j.maxFailures) * Checks(j)
  {
    hide Checks;
  }

  lemma PriceProvides(j: Job, workers: nat, managers: nat)
    requires j.minCheckingInterval > 0 && workers <= j.redundancy && managers <= PaidManagers(j)
    ensures workers * Workers(j) + managers * j.managementPrice <= ExactPrice(j)
  {
    hide Workers;
    hide Checks;
    hide ExactPrice;
    var r, fee := j.redundancy + j.maxFailures, j.managementPrice;
    TimesMonotone(workers, j.redundancy, Workers(j));
    TimesMonotone(managers, PaidManagers(j), fee);
    assert PaidManagers(j) * fee == fee * r * Checks(j) by {
      assert fee * r * Checks(j) == fee * (r * Checks(j));
    }
    Swap(j.redundancy, Workers(j));
    PriceParts(j);
  }

  lemma WrapSmall(a: nat)
    requires a < TWO64
    ensures U64(a) == a
  {
  }

  function WorkerPrices(call: Call): seq<uint64> {
    if call.SetCompleted? then call.workerPrices else []
  }

  function NetworkPrices(call: Call): seq<uint64> {
    if call.SetCompleted? then call.networkPrices else []
  }

  /** A task paid out within the maxima is covered, whatever its sender has pending. */
  lemma WithinMaximaCovers(h: Hashes, s: Ledger, tx: Transaction)
    requires TablesOk(h, s.jobs, s.tasks) && Exec(h, s, tx).Some? && Payout(s, tx.call).Some?
    requires var id := Payout(s, tx.call).value.0;
             var j := JobAt(s.jobs, s.tasks[id].jobId);
             && j.minCheckingInterval > 0 && ExactPrice(j) < TWO64
             && WithinMaxima(j, |s.tasks[id].managers|, WorkerPrices(tx.call), NetworkPrices(tx.call))
    ensures Covered(s, tx.call)
  {
    hide ExactPrice;
    hide Settle;
    hide PricePerTask;
    hide WithinMaxima;
    var (id, pays) := Payout(s, tx.call).value;
    var j := JobAt(s.jobs, s.tasks[id].jobId);
    var managers := s.tasks[id].managers;
    if tx.call.SetCompleted? {
      PayoutWithinPrice(j, managers, tx.call.workers, WorkerPrices(tx.call), NetworkPrices(tx.call));
    } else {
      PayoutWithinPrice(j, managers, [], [], []);
      assert WorkerPays(j, [], [], []) + ManagerPays(j, managers) == pays;
    }
  }

  // ---------------------------------------------------------------- the bound of push_manager

  /** The price is provided for `PaidManagers`; `push_manager` bounds by a difference that wraps. */
  lemma DefaultDraftBounds(who: Address, nonce: uint128)
    ensures var j := NewDraft(who, nonce);
            PricePerTask(j) == 14 && PaidManagers(j) == 4 && ManagersBound(j) == TWO64 - 1
  {
  }

  /**
   A job with the default parameters, one argument and 15 managers: every bound the contract
   checks holds, the failure of its task is accepted, and it leaves the accounts with more money
   than the contract has ether.
   */
  lemma UnpaidManagersExample(h: Hashes, s: Ledger, id: Id, reason: ErrorKind)
    requires Solvent(h, s) && id in s.tasks && s.tasks[id].state == Incomplete
    requires s.tasks[id].jobId in s.jobs
    requires var j := s.jobs[s.tasks[id].jobId];
             && j == NewDraft(j.sender, j.nonce).(arguments := j.arguments, isDraft := false)
             && UserAt(s.users, j.sender).pending == 0
             && |s.tasks[id].managers| == 15 && j.sender !in s.tasks[id].managers
    ensures var tx := Transaction(s.oracle, SetDefinitelyFailed(id, reason));
            |s.tasks[id].managers| < ManagersBound(s.jobs[s.tasks[id].jobId])
            && Exec(h, s, tx).Some? && !Solvent(h, Step(h, s, tx))
  {
    hide TablesOk;
    hide Owed;
    hide Total;
    var j := s.jobs[s.tasks[id].jobId];
    DefaultDraftBounds(j.sender, j.nonce);
    SumManagerPays(j, s.tasks[id].managers);
    NotPaid(FailurePays(s, id), j.sender);
    var tx := Transaction(s.oracle, SetDefinitelyFailed(id, reason));
    assert !Covered(s, tx.call);
    StepSolventIff(h, s, tx);
  }

  lemma {:induction false} NotPaid(pays: seq<Payment>, a: Address)
    requires forall i | 0 <= i < |pays| :: pays[i].to != a
    ensures PaidTo(pays, a) == 0
  {
    if pays != [] {
      NotPaid(pays[..|pays| - 1], a);
    }
  }
}

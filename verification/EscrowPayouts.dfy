/** What ending a task does to every account, with the wages and fees written out. */
module EscrowPayouts {
  import opened Base
  import opened Escrow
  import opened EscrowMoney

  /** The wages of `a`: time and network usage of each entry that names it, at its own prices, in 64 bits. */
  ghost function Wages(j: Job, workers: seq<Address>, workerPrices: seq<uint64>, networkPrices: seq<uint64>, a: Address): nat
    requires |workers| == |workerPrices| == |networkPrices|
  {
    if workers == [] then 0
    else
      var n := |workers| - 1;
      Wages(j, workers[..n], workerPrices[..n], networkPrices[..n], a)
      + (if workers[n] == a
         then (workerPrices[n] * j.timeout + networkPrices[n] * j.maxNetworkUsage) % TWO64 else 0)
  }

  /** One fee for each registration. */
  ghost function Fees(j: Job, managers: seq<Address>, a: Address): nat {
    multiset(managers)[a] * j.managementPrice
  }

  lemma CostWrapsOnce(j: Job, workerPrice: uint64, networkPrice: uint64)
    ensures WorkerCost(j, workerPrice, networkPrice) == (workerPrice * j.timeout + networkPrice * j.maxNetworkUsage) % TWO64
  {
    WrapsOnce(workerPrice * j.timeout, networkPrice * j.maxNetworkUsage);
  }

  lemma WrapsOnce(x: int, y: int)
    ensures U64(U64(x) + U64(y)) == (x + y) % TWO64
  {
  }

  lemma {:induction false} WorkersPaid(j: Job, workers: seq<Address>, workerPrices: seq<uint64>, networkPrices: seq<uint64>, a: Address)
    requires |workers| == |workerPrices| == |networkPrices|
    ensures PaidTo(WorkerPays(j, workers, workerPrices, networkPrices), a) == Wages(j, workers, workerPrices, networkPrices, a)
  {
    hide WorkerCost;
    if workers != [] {
      var n := |workers| - 1;
      WorkersPaid(j, workers[..n], workerPrices[..n], networkPrices[..n], a);
      CostWrapsOnce(j, workerPrices[n], networkPrices[n]);
      assert WorkerPays(j, workers, workerPrices, networkPrices)[..n]
             == WorkerPays(j, workers[..n], workerPrices[..n], networkPrices[..n]);
    }
  }

  lemma {:induction false} ManagersPaid(j: Job, managers: seq<Address>, a: Address)
    ensures PaidTo(ManagerPays(j, managers), a) == Fees(j, managers, a)
  {
    if managers != [] {
      var n := |managers| - 1;
      ManagersPaid(j, managers[..n], a);
      assert ManagerPays(j, managers)[..n] == ManagerPays(j, managers[..n]);
      assert managers == managers[..n] + [managers[n]];
      Distribute(multiset(managers[..n])[a], 1, j.managementPrice);
    }
  }

  lemma {:induction false} PaidToAppend(p: seq<Payment>, q: seq<Payment>, a: Address)
    ensures PaidTo(p + q, a) == PaidTo(p, a) + PaidTo(q, a)
  {
    if q == [] {
      assert p + q == p;
    } else {
      PaidToAppend(p, q[..|q| - 1], a);
      assert (p + q)[..|p + q| - 1] == p + q[..|q| - 1];
    }
  }

  /** The rest of the price, which the sender gets back: what the workers and managers together left of it. */
  ghost function Rest(j: Job, wages: nat, managers: nat): int {
    PricePerTask(j) - wages - managers * j.managementPrice
  }

  ghost function AllWages(j: Job, workerPrices: seq<uint64>, networkPrices: seq<uint64>): nat
    requires |workerPrices| == |networkPrices|
  {
    if workerPrices == [] then 0
    else
      var n := |workerPrices| - 1;
      AllWages(j, workerPrices[..n], networkPrices[..n])
      + (workerPrices[n] * j.timeout + networkPrices[n] * j.maxNetworkUsage) % TWO64
  }

  lemma {:induction false} SumWorkerPays(j: Job, workers: seq<Address>, workerPrices: seq<uint64>, networkPrices: seq<uint64>)
    requires |workers| == |workerPrices| == |networkPrices|
    ensures SumPays(WorkerPays(j, workers, workerPrices, networkPrices)) == AllWages(j, workerPrices, networkPrices)
  {
    hide WorkerCost;
    if workers != [] {
      var n := |workers| - 1;
      SumWorkerPays(j, workers[..n], workerPrices[..n], networkPrices[..n]);
      CostWrapsOnce(j, workerPrices[n], networkPrices[n]);
      assert WorkerPays(j, workers, workerPrices, networkPrices)[..n]
             == WorkerPays(j, workers[..n], workerPrices[..n], networkPrices[..n]);
    }
  }

  /** An account after a call that pays `paid` to it and, if it is the sender's, unlocks `price` and refunds `rest`. */
  ghost predicate Gains(u: User, u': User, paid: nat, sends: bool, price: nat, rest: int) {
    && u'.nextNonce == u.nextNonce
    && u'.locked == (if sends then (u.locked - price) % TWO256 else u.locked)
    && u'.pending == (u.pending + paid + (if sends then rest else 0)) % TWO256
  }

  lemma {:induction false} SettledGains(users: map<Address, User>, pays: seq<Payment>, sender: Address, price: uint64, a: Address)
    ensures Gains(UserAt(users, a), UserAt(Refund(CreditAll(users, pays), sender, price, SumPays(pays)), a),
                  PaidTo(pays, a), a == sender, price, price - SumPays(pays))
  {
    hide CreditAll;
    hide PaidTo;
    hide SumPays;
    CreditAllGives(users, pays, a);
    if a == sender {
      TwoWraps(UserAt(users, a).pending + PaidTo(pays, a), price - SumPays(pays));
    }
  }

  lemma TwoWraps(x: int, y: int)
    ensures U256(U256(x) + U256(y)) == (x + y) % TWO256
  {
  }

  /**
   A task reported completed: each account gains the wages of the entries that name it and one fee for each
   time it is registered, and the sender of the job the rest of the price besides, which is unlocked.
   */
  lemma CompletedGains(h: Hashes, s: Ledger, tx: Transaction, a: Address)
    requires tx.call.SetCompleted? && Exec(h, s, tx).Some?
    ensures var c := tx.call;
            && |c.workers| == |c.workerPrices| == |c.networkPrices|
            && c.taskId in s.tasks && s.tasks[c.taskId].jobId in s.jobs
            && var j, managers := s.jobs[s.tasks[c.taskId].jobId], s.tasks[c.taskId].managers;
               Gains(UserAt(s.users, a), UserAt(Step(h, s, tx).users, a),
                     Wages(j, c.workers, c.workerPrices, c.networkPrices, a) + Fees(j, managers, a),
                     a == j.sender, PricePerTask(j), Rest(j, AllWages(j, c.workerPrices, c.networkPrices), |managers|))
  {
    hide PricePerTask;
    hide CreditAll;
    hide CreditLog;
    hide SumPays;
    hide WorkerPays;
    hide ManagerPays;
    hide Refund;
    hide AllDone;
    hide Gains;
    hide Fees;
    var c := tx.call;
    var j, managers := s.jobs[s.tasks[c.taskId].jobId], s.tasks[c.taskId].managers;
    var wp, mp := WorkerPays(j, c.workers, c.workerPrices, c.networkPrices), ManagerPays(j, managers);
    WorkersPaid(j, c.workers, c.workerPrices, c.networkPrices, a);
    ManagersPaid(j, managers, a);
    PaidToAppend(wp, mp, a);
    SumWorkerPays(j, c.workers, c.workerPrices, c.networkPrices);
    SumManagerPays(j, managers);
    SumPaysAppend(wp, mp);
    SettledGains(s.users, wp + mp, j.sender, PricePerTask(j), a);
  }

  /** A task reported failed: no wages. */
  lemma FailedGains(h: Hashes, s: Ledger, tx: Transaction, a: Address)
    requires tx.call.SetDefinitelyFailed? && Exec(h, s, tx).Some?
    ensures var id := tx.call.taskId;
            && id in s.tasks && s.tasks[id].jobId in s.jobs
            && var j, managers := s.jobs[s.tasks[id].jobId], s.tasks[id].managers;
               Gains(UserAt(s.users, a), UserAt(Step(h, s, tx).users, a), Fees(j, managers, a),
                     a == j.sender, PricePerTask(j), Rest(j, 0, |managers|))
  {
    hide PricePerTask;
    hide CreditAll;
    hide CreditLog;
    hide SumPays;
    hide ManagerPays;
    hide Refund;
    hide AllDone;
    hide Gains;
    hide Fees;
    var id := tx.call.taskId;
    var j, managers := s.jobs[s.tasks[id].jobId], s.tasks[id].managers;
    ManagersPaid(j, managers, a);
    SumManagerPays(j, managers);
    SettledGains(s.users, ManagerPays(j, managers), j.sender, PricePerTask(j), a);
  }

  /** Transactions that move no money: drafts and their edits, and registrations. */
  lemma OthersMoveNothing(h: Hashes, s: Ledger, tx: Transaction, a: Address)
    requires !tx.call.SetCompleted? && !tx.call.SetDefinitelyFailed?
    ensures var u, u' := UserAt(s.users, a), UserAt(Step(h, s, tx).users, a);
            (a != tx.sender || !(tx.call.SendPendingMoney? || tx.call.RecoverPendingMoney? || tx.call.Lock?)) ==>
              u'.pending == u.pending && u'.locked == u.locked
  {
    hide FreeNonce;
    hide LockTasks;
    hide DraftReady;
    hide MaxPrice;
  }
}

/**
 The Jobs escrow contract as a transition system over values.

 `Exec` gives the effect of one transaction: `None` when the contract reverts, which leaves the
 ledger as it was. A Solidity mapping is a `map` whose missing keys read as the all-zero struct;
 the `non_null` flags are membership. The class of module `JobsContract` implements these
 functions statement by statement.
 */
module Escrow {
  import opened Base

  /** `calc_job_id` and `calc_task_id`: keccak-256, left uninterpreted. */
  datatype Hashes = Hashes(job: (Address, uint128) -> Id, task: (Id, nat) -> Id)

  datatype Job = Job(
    arguments: seq<Bytes>,
    timeout: uint64,
    maxWorkerPrice: uint64,
    maxNetworkUsage: uint64,
    maxNetworkPrice: uint64,
    minCheckingInterval: uint64,
    managementPrice: uint64,
    redundancy: uint64,
    maxFailures: uint64,
    otherData: Bytes,
    sender: Address,
    nonce: uint128,
    isDraft: bool)

  const NULL_JOB := Job([], 0, 0, 0, 0, 0, 0, 0, 0, [], 0, 0, false)

  datatype TaskState = Incomplete | Completed | DefinetelyFailed

  datatype ErrorKind = TimedOut | Download | Runtime | IncorrectSpecification | IncorrectResult

  datatype Task = Task(
    jobId: Id,
    argumentId: nat,
    state: TaskState,
    managers: seq<Address>,
    result: Bytes,
    reason: ErrorKind)

  datatype User = User(nextNonce: uint128, locked: uint256, pending: uint256)

  datatype Event =
    | JobNew(sender: Address, nonce: uint128)
    | TaskPending(taskId: Id)
    | TaskCompleted(taskId: Id, result: Bytes)
    | TaskDefinetelyFailed(taskId: Id, reason: ErrorKind)
    | PendingMoneyChanged(account: Address, newVal: uint256)
    | JobCompleted(jobId: Id)

  /** Storage, event log and ether balance of the contract. */
  datatype Ledger = Ledger(
    jobs: map<Id, Job>,
    tasks: map<Id, Task>,
    users: map<Address, User>,
    oracle: Address,
    log: seq<Event>,
    ether: nat)

  datatype Call =
    | SendPendingMoney(value: uint256)
    | RecoverPendingMoney(amount: uint256, accepted: bool)
    | CreateDraft
    | SetParameters(id: Id, timeout: uint64, redundancy: uint64, maxFailures: uint64)
    | SetOtherData(id: Id, data: Bytes)
    | ResetArguments(id: Id)
    | PushArgument(id: Id, argument: Bytes)
    | SetWorkerParameters(id: Id, maxWorkerPrice: uint64, maxNetworkUsage: uint64, maxNetworkPrice: uint64)
    | SetManagementParameters(id: Id, minCheckingInterval: uint64, managementPrice: uint64)
    | DeleteDraft(id: Id)
    | Lock(id: Id)
    | PushManager(taskId: Id, manager: Address)
    | SetDefinitelyFailed(taskId: Id, reason: ErrorKind)
    | SetCompleted(taskId: Id, result: Bytes, workers: seq<Address>,
                   workerPrices: seq<uint64>, networkPrices: seq<uint64>)

  datatype Transaction = Transaction(sender: Address, call: Call)

  // ---------------------------------------------------------------- storage reads

  function JobAt(jobs: map<Id, Job>, id: Id): Job {
    if id in jobs then jobs[id] else NULL_JOB
  }

  function UserAt(users: map<Address, User>, a: Address): User {
    if a in users then users[a] else User(0, 0, 0)
  }

  /** An unknown task reads as `Incomplete`, the zero of the enumeration. */
  function StateAt(tasks: map<Id, Task>, id: Id): TaskState {
    if id in tasks then tasks[id].state else Incomplete
  }

  function TaskId(h: Hashes, jobId: Id, index: nat): Id {
    h.task(jobId, index)
  }

  function JobId(h: Hashes, sender: Address, nonce: uint128): Id {
    h.job(sender, nonce)
  }

  // ---------------------------------------------------------------- prices

  /** A zero divisor reverts; every caller rules it out first. */
  function PricePerTask(j: Job): uint64 {
    var checks := if j.minCheckingInterval == 0 then 0 else j.timeout / j.minCheckingInterval;
    WrappedPrice(j.timeout * j.maxWorkerPrice, j.maxNetworkUsage * j.maxNetworkPrice, j.redundancy,
                 j.managementPrice, j.redundancy + j.maxFailures, 4 + checks)
  }

  /** Every operation wraps. */
  function WrappedPrice(time: nat, network: nat, redundancy: nat, fee: nat, runs: nat, checks: nat): uint64 {
    U64(U64(U64(U64(time) + U64(network)) * redundancy) + U64(U64(fee * U64(runs)) * U64(checks)))
  }

  function MaxPrice(j: Job): uint256 {
    U256(PricePerTask(j) * |j.arguments|)
  }

  function WorkerCost(j: Job, workerPrice: uint64, networkPrice: uint64): uint64 {
    U64(U64(workerPrice * j.timeout) + U64(networkPrice * j.maxNetworkUsage))
  }

  predicate DraftReady(j: Job, pending: uint256) {
    && |j.arguments| > 0
    && j.timeout > 9
    && j.maxWorkerPrice > 0
    && j.maxNetworkPrice > 0
    && j.redundancy > 0
    && j.minCheckingInterval > 14
    && j.managementPrice > 0
    && pending >= MaxPrice(j)
  }

  // ---------------------------------------------------------------- payments

  datatype Payment = Payment(to: Address, amount: uint64)

  function Credit(users: map<Address, User>, p: Payment): map<Address, User> {
    var u := UserAt(users, p.to);
    users[p.to := User(u.nextNonce, u.locked, U256(u.pending + p.amount))]
  }

  function CreditAll(users: map<Address, User>, pays: seq<Payment>): map<Address, User> {
    if pays == [] then users
    else Credit(CreditAll(users, pays[..|pays| - 1]), pays[|pays| - 1])
  }

  /** One `PendingMoneyChanged` a payment, each showing the balance at that moment. */
  function CreditLog(users: map<Address, User>, pays: seq<Payment>): seq<Event> {
    if pays == [] then []
    else
      var to := pays[|pays| - 1].to;
      CreditLog(users, pays[..|pays| - 1]) + [PendingMoneyChanged(to, UserAt(CreditAll(users, pays), to).pending)]
  }

  function SumPays(pays: seq<Payment>): nat {
    if pays == [] then 0 else SumPays(pays[..|pays| - 1]) + pays[|pays| - 1].amount
  }

  function ManagerPays(j: Job, managers: seq<Address>): seq<Payment> {
    seq(|managers|, i requires 0 <= i < |managers| => Payment(managers[i], j.managementPrice))
  }

  function WorkerPays(j: Job, workers: seq<Address>, workerPrices: seq<uint64>, networkPrices: seq<uint64>): seq<Payment>
    requires |workers| == |workerPrices| == |networkPrices|
  {
    seq(|workers|, i requires 0 <= i < |workers| =>
      Payment(workers[i], WorkerCost(j, workerPrices[i], networkPrices[i])))
  }

  /** Unlocks the price of one task and gives back what the payments left of it. */
  function Refund(users: map<Address, User>, sender: Address, price: uint64, total: nat): map<Address, User> {
    var u := UserAt(users, sender);
    users[sender := User(u.nextNonce, U256(u.locked - price), U256(u.pending + U256(price - total)))]
  }

  // ---------------------------------------------------------------- transactions

  predicate AllDone(h: Hashes, tasks: map<Id, Task>, jobId: Id, n: nat) {
    forall i | 0 <= i < n :: StateAt(tasks, TaskId(h, jobId, i)) != Incomplete
  }

  function IsJobCompleted(h: Hashes, s: Ledger, jobId: Id): Option<bool> {
    if jobId !in s.jobs then None
    else Some(AllDone(h, s.tasks, jobId, |s.jobs[jobId].arguments|))
  }

  /** First unused nonce from `nonce` on; `None` when `tries` nonces in a row are taken. */
  function FreeNonce(h: Hashes, jobs: map<Id, Job>, who: Address, nonce: uint128, tries: nat): Option<uint128>
    decreases tries
  {
    if tries == 0 then None
    else if JobId(h, who, nonce) !in jobs then Some(nonce)
    else FreeNonce(h, jobs, who, U128(nonce + 1), tries - 1)
  }

  function NewDraft(who: Address, nonce: uint128): Job {
    Job([], 10, 1, 0, 1, 15, 1, 1, 0, [], who, nonce, true)
  }

  predicate IsOurDraft(s: Ledger, who: Address, id: Id) {
    id in s.jobs && s.jobs[id].sender == who && s.jobs[id].isDraft
  }

  function Edit(s: Ledger, who: Address, id: Id, valid: bool, job: Job): Option<Ledger> {
    if valid && IsOurDraft(s, who, id) then Some(s.(jobs := s.jobs[id := job])) else None
  }

  function FreshTask(jobId: Id, index: nat): Task {
    Task(jobId, index, Incomplete, [], [], TimedOut)
  }

  /** The tasks after the first `n` turns of the loop of `lock`; `None` on a collision. */
  function LockTasks(h: Hashes, tasks: map<Id, Task>, jobId: Id, n: nat): Option<map<Id, Task>> {
    if n == 0 then Some(tasks)
    else match LockTasks(h, tasks, jobId, n - 1)
      case None => None
      case Some(before) =>
        var id := TaskId(h, jobId, n - 1);
        if id in before then None else Some(before[id := FreshTask(jobId, n - 1)])
  }

  function LockLog(h: Hashes, jobId: Id, n: nat): seq<Event> {
    seq(n, i requires 0 <= i => TaskPending(TaskId(h, jobId, i)))
  }

  /**
   The loop counter of `lock` has 128 bits: with more arguments it comes round to a task it has
   already created, and reverts on the collision.
   */
  function ExecLock(h: Hashes, s: Ledger, who: Address, id: Id): Option<Ledger> {
    if !IsOurDraft(s, who, id) || !DraftReady(s.jobs[id], UserAt(s.users, who).pending)
       || |s.jobs[id].arguments| >= TWO128 then None
    else
      var j := s.jobs[id].(isDraft := false);
      match LockTasks(h, s.tasks, id, |j.arguments|)
      case None => None
      case Some(tasks) =>
        var u := UserAt(s.users, who);
        var price := MaxPrice(j);
        var u' := User(u.nextNonce, U256(u.locked + price), U256(u.pending - price));
        Some(s.(jobs := s.jobs[id := j], tasks := tasks, users := s.users[who := u'],
             log := s.log + LockLog(h, id, |j.arguments|) + [PendingMoneyChanged(who, u'.pending)]))
  }

  /** `4 + timeout - min_checking_interval`, computed in 64 bits. */
  function ManagersBound(j: Job): uint64 {
    U64(4 + j.timeout - j.minCheckingInterval)
  }

  function ExecPushManager(s: Ledger, who: Address, id: Id, manager: Address): Option<Ledger> {
    if id !in s.tasks || who != s.oracle || s.tasks[id].state != Incomplete
       || |s.tasks[id].managers| >= ManagersBound(JobAt(s.jobs, s.tasks[id].jobId)) then None
    else Some(s.(tasks := s.tasks[id := s.tasks[id].(managers := s.tasks[id].managers + [manager])]))
  }

  /** What both ways of finishing a task share: the payments, the refund and `JobCompleted`. */
  function Settle(h: Hashes, s: Ledger, id: Id, task: Task, pays: seq<Payment>, sayRefund: bool, said: Event): Option<Ledger>
    requires id in s.tasks
  {
    var j := JobAt(s.jobs, task.jobId);
    if |task.managers| == 0 || j.minCheckingInterval == 0 || task.jobId !in s.jobs then None
    else
      var users := Refund(CreditAll(s.users, pays), j.sender, PricePerTask(j), SumPays(pays));
      var tasks := s.tasks[id := task];
      var told := if sayRefund then [PendingMoneyChanged(j.sender, UserAt(users, j.sender).pending)] else [];
      var ended := if AllDone(h, tasks, task.jobId, |j.arguments|) then [JobCompleted(task.jobId)] else [];
      Some(s.(tasks := tasks, users := users, log := s.log + CreditLog(s.users, pays) + told + [said] + ended))
  }

  function FailurePays(s: Ledger, id: Id): seq<Payment>
    requires id in s.tasks
  {
    ManagerPays(JobAt(s.jobs, s.tasks[id].jobId), s.tasks[id].managers)
  }

  function CompletionPays(s: Ledger, id: Id, workers: seq<Address>, workerPrices: seq<uint64>, networkPrices: seq<uint64>)
    : seq<Payment>
    requires id in s.tasks && |workers| == |workerPrices| == |networkPrices|
  {
    WorkerPays(JobAt(s.jobs, s.tasks[id].jobId), workers, workerPrices, networkPrices) + FailurePays(s, id)
  }

  function ExecFail(h: Hashes, s: Ledger, who: Address, id: Id, reason: ErrorKind): Option<Ledger> {
    if who != s.oracle || id !in s.tasks || s.tasks[id].state != Incomplete then None
    else
      Settle(h, s, id, s.tasks[id].(state := DefinetelyFailed, reason := reason), FailurePays(s, id),
             false, TaskDefinetelyFailed(id, reason))
  }

  function ExecComplete(h: Hashes, s: Ledger, who: Address, id: Id, result: Bytes, workers: seq<Address>,
                        workerPrices: seq<uint64>, networkPrices: seq<uint64>): Option<Ledger> {
    if who != s.oracle || id !in s.tasks || s.tasks[id].state != Incomplete || |s.tasks[id].result| != 0
       || |result| == 0 || !(|workers| == |workerPrices| == |networkPrices|)
       || |workers| != JobAt(s.jobs, s.tasks[id].jobId).redundancy then None
    else
      Settle(h, s, id, s.tasks[id].(state := Completed, result := result),
             CompletionPays(s, id, workers, workerPrices, networkPrices), true, TaskCompleted(id, result))
  }

  function ExecSend(s: Ledger, who: Address, value: uint256): Ledger {
    var u := UserAt(s.users, who);
    var u' := u.(pending := U256(u.pending + value));
    s.(users := s.users[who := u'], ether := s.ether + value, log := s.log + [PendingMoneyChanged(who, u'.pending)])
  }

  /** `transfer` reverts when the contract holds too little ether or the receiver refuses it. */
  function ExecRecover(s: Ledger, who: Address, amount: uint256, accepted: bool): Option<Ledger> {
    var u := UserAt(s.users, who);
    if u.pending < amount || s.ether < amount || !accepted then None
    else
      var u' := u.(pending := u.pending - amount);
      Some(s.(users := s.users[who := u'], ether := s.ether - amount,
           log := s.log + [PendingMoneyChanged(who, u'.pending)]))
  }

  /** 2^128 used nonces in a row would keep the search going for ever: it runs out of gas and reverts. */
  function ExecCreate(h: Hashes, s: Ledger, who: Address): Option<Ledger> {
    var u := UserAt(s.users, who);
    match FreeNonce(h, s.jobs, who, u.nextNonce, TWO128)
    case None => None
    case Some(nonce) =>
      Some(s.(users := s.users[who := u.(nextNonce := U128(nonce + 1))],
           jobs := s.jobs[JobId(h, who, nonce) := NewDraft(who, nonce)],
           log := s.log + [JobNew(who, nonce)]))
  }

  function Exec(h: Hashes, s: Ledger, tx: Transaction): Option<Ledger> {
    var who := tx.sender;
    match tx.call
    case SendPendingMoney(value) => Some(ExecSend(s, who, value))
    case RecoverPendingMoney(amount, accepted) => ExecRecover(s, who, amount, accepted)
    case CreateDraft => ExecCreate(h, s, who)
    case SetParameters(id, timeout, redundancy, maxFailures) =>
      Edit(s, who, id, timeout > 9 && redundancy > 0,
           JobAt(s.jobs, id).(timeout := timeout, redundancy := redundancy, maxFailures := maxFailures))
    case SetOtherData(id, data) => Edit(s, who, id, true, JobAt(s.jobs, id).(otherData := data))
    case ResetArguments(id) => Edit(s, who, id, true, JobAt(s.jobs, id).(arguments := []))
    case PushArgument(id, argument) =>
      Edit(s, who, id, |argument| > 0, JobAt(s.jobs, id).(arguments := JobAt(s.jobs, id).arguments + [argument]))
    case SetWorkerParameters(id, workerPrice, usage, networkPrice) =>
      Edit(s, who, id, workerPrice > 0 && networkPrice > 0,
           JobAt(s.jobs, id).(maxWorkerPrice := workerPrice, maxNetworkUsage := usage, maxNetworkPrice := networkPrice))
    case SetManagementParameters(id, interval, price) =>
      Edit(s, who, id, interval > 14 && price > 0,
           JobAt(s.jobs, id).(minCheckingInterval := interval, managementPrice := price))
    case DeleteDraft(id) => if IsOurDraft(s, who, id) then Some(s.(jobs := s.jobs - {id})) else None
    case Lock(id) => ExecLock(h, s, who, id)
    case PushManager(id, manager) => ExecPushManager(s, who, id, manager)
    case SetDefinitelyFailed(id, reason) => ExecFail(h, s, who, id, reason)
    case SetCompleted(id, result, workers, workerPrices, networkPrices) =>
      ExecComplete(h, s, who, id, result, workers, workerPrices, networkPrices)
  }

  /** A reverted transaction changes nothing. */
  function Step(h: Hashes, s: Ledger, tx: Transaction): Ledger {
    match Exec(h, s, tx)
    case Some(next) => next
    case None => s
  }

  function Run(h: Hashes, s: Ledger, txs: seq<Transaction>): Ledger {
    if txs == [] then s else Step(h, Run(h, s, txs[..|txs| - 1]), txs[|txs| - 1])
  }

  function Deployed(oracle: Address): Ledger {
    Ledger(map[], map[], map[], oracle, [], 0)
  }
}

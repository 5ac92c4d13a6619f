/**
 The oracle node: it checks each proposal, turns it into state changes, sorts them and applies
 them to the shared state, finishing tasks on the escrow contract.

 A world is the contract's ledger together with the shared state. The write lock is held for a
 whole proposal, so a proposal is one step. `Stop` is a panic: the `unwrap` of a change that
 returned an error.
 */
module Oracle {
  import opened Base
  import opened SharedState
  import Escrow

  /** Events for the local node, `shared_state::Event`. */
  datatype Notice =
    | Pending
    | AssignedTo(worker: PeerId)
    | UnassignedFrom(worker: PeerId, workersManager: PeerId)

  /** What the shared state needs of a job. */
  datatype JobInfo = JobInfo(redundancy: uint64, maxFailures: uint64)

  datatype Shared = Shared(tasks: map<Id, TaskData>, jobs: map<Id, JobInfo>, notices: seq<(Id, Notice)>)

  datatype World = World(ledger: Escrow.Ledger, shared: Shared)

  /** Hashes of the contract, address of this node, and the time of the step. */
  datatype Env = Env(h: Escrow.Hashes, me: Address, now: int)

  // ---------------------------------------------------------------- proposals

  /** `None` stands for bytes that do not parse. */
  datatype WorkerError = TimedOut | Download | Runtime | Aborted | Unknown

  datatype WorkerMessage = WorkerMessage(worker: Option<PeerId>, error: Option<WorkerError>)

  datatype UnansweredPing = UnansweredPing(taskId: Id, worker: Option<PeerId>)

  datatype FailureKind =
    | WorkerFailed(message: Option<WorkerMessage>)
    | ManagerUnavailable(ping: Option<UnansweredPing>)
    | IncorrectResults
    | IncorrectSpecs
    | NoFailureKind

  datatype Offer = Offer(
    taskId: Id,
    payment: Option<Address>,
    worker: Option<PeerId>,
    workersManager: Option<PeerId>,
    workerPrice: uint64,
    networkPrice: uint64)

  /** `ManTaskStatus` of a completion; `result` is `None` for any other status. */
  datatype SelectedResult = SelectedResult(taskId: Id, worker: Option<PeerId>, statusTaskId: Id, result: Option<Bytes>)

  datatype Kind =
    | NewTask(decodable: bool)
    | Failure(newNbFailures: uint64, kind: FailureKind)
    | Scheduling(offers: seq<Offer>)
    | CheckedRunning(worker: Option<PeerId>)
    | Completion(selected: Option<SelectedResult>)
    | NoKind

  datatype Proposal = Proposal(payment: Option<Address>, taskId: Option<Id>, kind: Kind)

  // ---------------------------------------------------------------- state changes

  datatype StateChange =
    | Create(jobId: Id, argId: nat, job: Option<JobInfo>)
    | Check(worker: PeerId)
    | UnassignWorker(worker: PeerId)
    | AssignWorker(worker: PeerId, workersManager: PeerId, payment: PaymentInfo)
    | AddManager
    | SetNbFailures(nb: uint64)
    | Complete(result: Bytes)
    | Fail(reason: DefiniteError)
  {
    /** Order in which the changes of a proposal are executed. */
    function Rank(): (r: nat)
      ensures r < 8
    {
      match this
      case Create(_, _, _) => 0
      case Check(_) => 1
      case UnassignWorker(_) => 2
      case AssignWorker(_, _, _) => 3
      case AddManager => 4
      case SetNbFailures(_) => 5
      case Complete(_) => 6
      case Fail(_) => 7
    }
  }

  function OfRank(changes: seq<StateChange>, r: nat): seq<StateChange> {
    if changes == [] then []
    else
      var last := changes[|changes| - 1];
      OfRank(changes[..|changes| - 1], r) + (if last.Rank() == r then [last] else [])
  }

  /** The ranks below `r`, one after the other, each in the order of the list. */
  function SortBelow(changes: seq<StateChange>, r: nat): seq<StateChange> {
    if r == 0 then [] else SortBelow(changes, r - 1) + OfRank(changes, r - 1)
  }

  /** `Vec::sort`, which is stable. */
  function Sort(changes: seq<StateChange>): seq<StateChange> {
    SortBelow(changes, 8)
  }

  // ---------------------------------------------------------------- handlers

  datatype Verdict = Accept(changes: seq<StateChange>) | Reject | Panic

  function InfoOf(j: Escrow.Job): JobInfo {
    JobInfo(if j.redundancy > 1 then j.redundancy else 1, j.maxFailures)
  }

  function HandleNewTask(w: World, id: Id, decodable: bool): Verdict {
    if id in w.shared.tasks || id !in w.ledger.tasks then Reject
    else
      var jobId := w.ledger.tasks[id].jobId;
      if jobId in w.shared.jobs then Accept([Create(jobId, w.ledger.tasks[id].argumentId, None)])
      else if jobId !in w.ledger.jobs || !decodable then Reject
      else Accept([Create(jobId, w.ledger.tasks[id].argumentId, Some(InfoOf(w.ledger.jobs[jobId])))])
  }

  function ToDefinite(e: WorkerError): Option<DefiniteError> {
    match e
    case TimedOut => Some(DefiniteError.TimedOut)
    case Download => Some(DefiniteError.Download)
    case Runtime => Some(DefiniteError.Runtime)
    case Aborted => Some(DefiniteError.Aborted)
    case Unknown => None
  }

  /** What the failure blames, whether the announced count fits, and which worker to release (`None`: all). */
  datatype Blame = Blame(reason: Option<DefiniteError>, countFits: bool, worker: Option<Option<PeerId>>)

  function BlameOf(t: TaskData, maxFailures: uint64, id: Id, newNb: uint64, kind: FailureKind): Option<Blame> {
    match kind
    case WorkerFailed(message) =>
      if message.None? || message.value.error.None? then None
      else
        var error := message.value.error.value;
        var worker := Some(message.value.worker);
        (match error
         case Unknown => None
         case Aborted => Some(Blame(ToDefinite(error), newNb == t.nbFailures, worker))
         case _ => Some(Blame(ToDefinite(error), newNb == U64(t.nbFailures + 1), worker)))
    case ManagerUnavailable(ping) =>
      if ping.None? || ping.value.taskId != id then None
      else Some(Blame(None, newNb == t.nbFailures, Some(ping.value.worker)))
    case IncorrectResults => Some(Blame(Some(IncorrectResult), newNb == U64(t.nbFailures + 1), None))
    case IncorrectSpecs => Some(Blame(Some(IncorrectSpecification), newNb > maxFailures, None))
    case NoFailureKind => None
  }

  /** The workers of the assigned replicas, in order. */
  function WorkersOf(subs: seq<Option<Assigned>>): seq<PeerId> {
    if subs == [] then []
    else
      var last := subs[|subs| - 1];
      WorkersOf(subs[..|subs| - 1]) + (if last.Some? then [last.value.worker] else [])
  }

  function UnassignAll(workers: seq<PeerId>): seq<StateChange> {
    seq(|workers|, i requires 0 <= i < |workers| => UnassignWorker(workers[i]))
  }

  /** Which workers a failure releases; `None` rejects it. */
  function Released(t: TaskData, maxFailures: uint64, worker: Option<Option<PeerId>>): Option<seq<PeerId>> {
    if worker.None? || t.nbFailures >= maxFailures then
      if t.completeness.Incomplete? then Some(WorkersOf(t.completeness.substates)) else None
    else if worker.value.Some? && SharedState.AssignedTo(t.completeness, worker.value.value) then Some([worker.value.value])
    else None
  }

  function HandleFailure(w: World, id: Id, newNb: uint64, kind: FailureKind): Verdict {
    if id !in w.shared.tasks then Reject
    else
      var t := w.shared.tasks[id];
      if t.jobId !in w.shared.jobs then Panic
      else
        var maxFailures := w.shared.jobs[t.jobId].maxFailures;
        match BlameOf(t, maxFailures, id, newNb, kind)
        case None => Reject
        case Some(blame) =>
          if !blame.countFits then Reject
          else match Released(t, maxFailures, blame.worker)
            case None => Reject
            case Some(workers) =>
              var changes := [SetNbFailures(newNb)] + UnassignAll(workers);
              if newNb <= maxFailures then Accept(changes)
              else if blame.reason.None? then Panic
              else Accept(changes + [Fail(blame.reason.value)])
  }

  predicate OfferOk(t: TaskData, id: Id, o: Offer) {
    && o.taskId == id && o.payment.Some? && o.worker.Some? && o.workersManager.Some?
    && !SharedState.AssignedTo(t.completeness, o.worker.value)
  }

  function AssignFor(o: Offer): StateChange
    requires o.payment.Some? && o.worker.Some? && o.workersManager.Some?
  {
    AssignWorker(o.worker.value, o.workersManager.value, PaymentInfo(o.payment.value, o.workerPrice, o.networkPrice))
  }

  /** Only as many offers as there are free replicas are looked at. */
  function Taken(t: TaskData, offers: seq<Offer>): seq<Offer>
    requires t.completeness.Incomplete?
  {
    if Free(t.completeness.substates) < |offers| then offers[..Free(t.completeness.substates)] else offers
  }

  function AssignAll(t: TaskData, id: Id, offers: seq<Offer>): seq<StateChange>
    requires forall i | 0 <= i < |offers| :: OfferOk(t, id, offers[i])
  {
    seq(|offers|, i requires 0 <= i < |offers| && OfferOk(t, id, offers[i]) => AssignFor(offers[i]))
  }

  function HandleScheduling(w: World, id: Id, offers: seq<Offer>): Verdict {
    if id !in w.shared.tasks then Reject
    else
      var t := w.shared.tasks[id];
      if !t.completeness.Incomplete? || Free(t.completeness.substates) == 0 then Reject
      else
        var taken := Taken(t, offers);
        if forall i | 0 <= i < |taken| :: OfferOk(t, id, taken[i]) then Accept(AssignAll(t, id, taken)) else Reject
  }

  function HandleChecked(env: Env, w: World, id: Id, worker: Option<PeerId>): Verdict {
    if id !in w.shared.tasks || worker.None? then Reject
    else
      var t := w.shared.tasks[id];
      match Substate(t.completeness, worker.value)
      case None => Reject
      case Some(a) =>
        if t.jobId !in w.ledger.jobs || env.now < a.lastCheck
           || env.now - a.lastCheck < w.ledger.jobs[t.jobId].minCheckingInterval then Reject
        else Accept([Check(worker.value)])
  }

  function HandleCompleted(w: World, id: Id, selected: Option<SelectedResult>): Verdict {
    if id !in w.shared.tasks || selected.None? then Reject
    else
      var t, s := w.shared.tasks[id], selected.value;
      if !t.completeness.Incomplete? || s.worker.None? || s.taskId != id
         || !SharedState.AssignedTo(t.completeness, s.worker.value)
         || s.result.None? || s.statusTaskId != id then Reject
      else Accept([Complete(s.result.value)])
  }

  function Handle(env: Env, w: World, id: Id, kind: Kind): Verdict {
    match kind
    case NewTask(decodable) => HandleNewTask(w, id, decodable)
    case Failure(newNb, failure) => HandleFailure(w, id, newNb, failure)
    case Scheduling(offers) => HandleScheduling(w, id, offers)
    case CheckedRunning(worker) => HandleChecked(env, w, id, worker)
    case Completion(selected) => HandleCompleted(w, id, selected)
    case NoKind => Reject
  }

  // ---------------------------------------------------------------- calls to the contract

  /** A reverted transaction is an error of the call. */
  datatype ChainResult = ChainResult(ok: bool, ledger: Escrow.Ledger)

  function Call(env: Env, l: Escrow.Ledger, call: Escrow.Call): ChainResult {
    match Escrow.Exec(env.h, l, Escrow.Transaction(env.me, call))
    case None => ChainResult(false, l)
    case Some(next) => ChainResult(true, next)
  }

  function PushAll(env: Env, l: Escrow.Ledger, id: Id, managers: seq<Address>): ChainResult
    decreases |managers|
  {
    if managers == [] then ChainResult(true, l)
    else
      var first := Call(env, l, Escrow.PushManager(id, managers[0]));
      if first.ok then PushAll(env, first.ledger, id, managers[1..]) else first
  }

  /** `jobs_set_managers`. */
  function SetManagers(env: Env, l: Escrow.Ledger, id: Id, managers: seq<Address>): ChainResult {
    if env.me != l.oracle || id !in l.tasks then ChainResult(false, l) else PushAll(env, l, id, managers)
  }

  /** `convert_task_error_kind`. */
  function ToContract(reason: DefiniteError): Option<Escrow.ErrorKind> {
    match reason
    case TimedOut => Some(Escrow.TimedOut)
    case Download => Some(Escrow.Download)
    case Runtime => Some(Escrow.Runtime)
    case IncorrectSpecification => Some(Escrow.IncorrectSpecification)
    case IncorrectResult => Some(Escrow.IncorrectResult)
    case Aborted => None
  }

  function Addresses(pays: seq<PaymentInfo>): seq<Address> {
    seq(|pays|, i requires 0 <= i < |pays| => pays[i].address)
  }

  function WorkerPrices(pays: seq<PaymentInfo>): seq<uint64> {
    seq(|pays|, i requires 0 <= i < |pays| => pays[i].workerPrice)
  }

  function NetworkPrices(pays: seq<PaymentInfo>): seq<uint64> {
    seq(|pays|, i requires 0 <= i < |pays| => pays[i].networkPrice)
  }

  function CompletionCall(id: Id, result: Bytes, pays: seq<PaymentInfo>): Escrow.Call {
    Escrow.SetCompleted(id, result, Addresses(pays), WorkerPrices(pays), NetworkPrices(pays))
  }

  /** `jobs_set_managers` then `jobs_set_completed`. */
  function FinishCompleted(env: Env, l: Escrow.Ledger, id: Id, managers: seq<Address>, result: Bytes, pays: seq<PaymentInfo>)
    : ChainResult
  {
    var r := SetManagers(env, l, id, managers);
    if r.ok then Call(env, r.ledger, CompletionCall(id, result, pays)) else r
  }

  /** `jobs_set_managers` then `jobs_set_definitely_failed`. */
  function FinishFailed(env: Env, l: Escrow.Ledger, id: Id, managers: seq<Address>, reason: DefiniteError): ChainResult {
    var r := SetManagers(env, l, id, managers);
    if !r.ok then r
    else match ToContract(reason)
      case None => r.(ok := false)
      case Some(kind) => Call(env, r.ledger, Escrow.SetDefinitelyFailed(id, kind))
  }

  // ---------------------------------------------------------------- applying changes

  datatype Applied = Done(world: World) | Stop(world: World)

  function WithTask(w: World, id: Id, t: TaskData): World {
    w.(shared := w.shared.(tasks := w.shared.tasks[id := t]))
  }

  function Notify(w: World, id: Id, notices: seq<Notice>): World {
    w.(shared := w.shared.(notices := w.shared.notices + seq(|notices|, i requires 0 <= i < |notices| => (id, notices[i]))))
  }

  function ApplyCreate(w: World, id: Id, jobId: Id, argId: nat, job: Option<JobInfo>): Applied {
    if jobId !in w.shared.jobs && job.None? then Stop(w)
    else
      var info := if jobId in w.shared.jobs then w.shared.jobs[jobId] else job.value;
      var t := TaskData(jobId, argId, 0, [], FreshCompleteness(info.redundancy));
      var w' := WithTask(w, id, t);
      Done(Notify(w'.(shared := w'.shared.(jobs := w.shared.jobs[jobId := info])), id,
                  seq(info.redundancy, i => Pending)))
  }

  function Apply(env: Env, w: World, id: Id, manager: Address, change: StateChange): Applied {
    if change.Create? then ApplyCreate(w, id, change.jobId, change.argId, change.job)
    else if id !in w.shared.tasks || !w.shared.tasks[id].completeness.Incomplete? then Stop(w)
    else
      var t := w.shared.tasks[id];
      var c := t.completeness;
      match change
      case Create(_, _, _) => Done(w)
      case Check(worker) =>
        if SharedState.AssignedTo(c, worker) then Done(WithTask(w, id, t.(completeness := Touch(c, worker, env.now))))
        else Stop(w)
      case AddManager => Done(WithTask(w, id, t.(managers := t.managers + [manager])))
      case UnassignWorker(worker) =>
        if !SharedState.AssignedTo(c, worker) then Stop(w)
        else
          var a := c.substates[FindWorker(c.substates, worker)];
          Done(Notify(WithTask(w, id, t.(completeness := Unassign(c, worker))), id,
                      [UnassignedFrom(a.value.worker, a.value.workersManager), Pending]))
      case AssignWorker(worker, workersManager, payment) =>
        if !CanAssign(c, worker) then Stop(w)
        else
          Done(Notify(WithTask(w, id, t.(completeness := Assign(c, Assigned(env.now, worker, workersManager, payment)))),
                      id, [AssignedTo(worker)]))
      case SetNbFailures(nb) => Done(WithTask(w, id, t.(nbFailures := nb)))
      case Complete(result) =>
        var pays := Payments(c.substates);
        var r := FinishCompleted(env, w.ledger, id, t.managers, result, pays);
        var w' := WithTask(w.(ledger := r.ledger), id, t.(completeness := Completed(result, pays)));
        if r.ok then Done(w') else Stop(w')
      case Fail(reason) =>
        var r := FinishFailed(env, w.ledger, id, t.managers, reason);
        var w' := WithTask(w.(ledger := r.ledger), id, t.(completeness := DefinetelyFailed(reason)));
        if r.ok then Done(w') else Stop(w')
  }

  /** The changes one by one; the first error stops the node. */
  function ApplyAll(env: Env, w: World, id: Id, manager: Address, changes: seq<StateChange>): Applied {
    if changes == [] then Done(w)
    else match ApplyAll(env, w, id, manager, changes[..|changes| - 1])
      case Stop(w') => Stop(w')
      case Done(w') => Apply(env, w', id, manager, changes[|changes| - 1])
  }

  /** `check_and_apply_proposal`: an accepted proposal also registers the manager who sent it. */
  function Propose(env: Env, w: World, p: Proposal): Applied {
    if p.payment.None? || p.taskId.None? then Done(w)
    else match Handle(env, w, p.taskId.value, p.kind)
      case Reject => Done(w)
      case Panic => Stop(w)
      case Accept(changes) => ApplyAll(env, w, p.taskId.value, p.payment.value, Sort(changes + [AddManager]))
  }
}

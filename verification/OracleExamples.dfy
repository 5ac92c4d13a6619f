/**
 Runs of the whole system from deployment: a worker that loses its task before it reports, a task that
 fails 2^64 times, and a proposal of each kind that stops the oracle.
 */
module OracleExamples {
  import opened Base
  import opened SharedState
  import opened Oracle
  import opened OracleChanges
  import opened OracleSafety
  import opened OracleRuns
  import Escrow
  import SlotMirror
  import Workers

  // ---------------------------------------------------------------- a locked job

  const ENDLESS: uint64 := 0xFFFF_FFFF_FFFF_FFFF

  /** What the job of a run sets; its other parameters are those of a new draft. */
  datatype Params = Params(timeout: uint64, redundancy: uint64, failures: uint64)

  predicate Cheap(ps: Params) {
    (ps.timeout == 10 || ps.timeout == 11) && (ps.redundancy == 1 || ps.redundancy == 2)
    && (ps.failures == 0 || ps.failures == ENDLESS)
  }

  function JobOf(who: Address, ps: Params): Escrow.Job {
    Escrow.NewDraft(who, 0).(timeout := ps.timeout, redundancy := ps.redundancy, maxFailures := ps.failures,
                             arguments := [[1]], isDraft := false)
  }

  function OnlyJob(h: Escrow.Hashes, who: Address): Id {
    Escrow.JobId(h, who, 0)
  }

  function OnlyTask(h: Escrow.Hashes, who: Address): Id {
    Escrow.TaskId(h, OnlyJob(h, who), 0)
  }

  /** A sender locks a job with one argument. */
  function LockSteps(h: Escrow.Hashes, who: Address, ps: Params): seq<SystemStep> {
    var id := OnlyJob(h, who);
    [Transact(Escrow.Transaction(who, Escrow.SendPendingMoney(100))),
     Transact(Escrow.Transaction(who, Escrow.CreateDraft)),
     Transact(Escrow.Transaction(who, Escrow.SetParameters(id, ps.timeout, ps.redundancy, ps.failures))),
     Transact(Escrow.Transaction(who, Escrow.PushArgument(id, [1]))),
     Transact(Escrow.Transaction(who, Escrow.Lock(id)))]
  }

  ghost predicate Locked(h: Escrow.Hashes, l: Escrow.Ledger, who: Address, ps: Params) {
    && l.jobs == map[OnlyJob(h, who) := JobOf(who, ps)]
    && l.tasks == map[OnlyTask(h, who) := Escrow.FreshTask(OnlyJob(h, who), 0)]
  }

  lemma RunMore(h: Escrow.Hashes, me: Address, steps: seq<SystemStep>, step: SystemStep)
    ensures var r := RunWorld(h, me, Start(me), steps);
            RunWorld(h, me, Start(me), steps + [step]) == if r.Stop? then r else StepWorld(h, me, r.world, step)
  {
    assert (steps + [step])[..|steps|] == steps;
  }

  lemma LockRuns(h: Escrow.Hashes, oracle: Address, who: Address, ps: Params)
    requires Cheap(ps)
    ensures var r := RunWorld(h, oracle, Start(oracle), LockSteps(h, who, ps));
            r.Done? && r.world.shared == Start(oracle).shared && Locked(h, r.world.ledger, who, ps)
  {
    hide Escrow.Step;
    var steps := LockSteps(h, who, ps);
    RunMore(h, oracle, [], steps[0]);
    RunMore(h, oracle, [] + [steps[0]], steps[1]);
    RunMore(h, oracle, [] + [steps[0]] + [steps[1]], steps[2]);
    RunMore(h, oracle, [] + [steps[0]] + [steps[1]] + [steps[2]], steps[3]);
    RunMore(h, oracle, [] + [steps[0]] + [steps[1]] + [steps[2]] + [steps[3]], steps[4]);
    assert [] + [steps[0]] + [steps[1]] + [steps[2]] + [steps[3]] + [steps[4]] == steps;
    LockLedger(h, oracle, who, ps);
  }

  lemma LockLedger(h: Escrow.Hashes, oracle: Address, who: Address, ps: Params)
    requires Cheap(ps)
    ensures var txs := LockSteps(h, who, ps);
            var s2 := Escrow.Step(h, Escrow.Step(h, Escrow.Deployed(oracle), txs[0].tx), txs[1].tx);
            Locked(h, Escrow.Step(h, Escrow.Step(h, Escrow.Step(h, s2, txs[2].tx), txs[3].tx), txs[4].tx), who, ps)
  {
    var txs, id := LockSteps(h, who, ps), OnlyJob(h, who);
    var s1 := Escrow.Step(h, Escrow.Deployed(oracle), txs[0].tx);
    assert s1.users == map[who := Escrow.User(0, 0, 100)] && s1.jobs == map[] && s1.tasks == map[];
    assert Escrow.FreeNonce(h, s1.jobs, who, 0, TWO128) == Some(0);
    var s2 := Escrow.Step(h, s1, txs[1].tx);
    assert s2.users == map[who := Escrow.User(1, 0, 100)] && s2.jobs == map[id := Escrow.NewDraft(who, 0)] && s2.tasks == map[];
    FillsDraft(h, s2, who, ps);
  }

  lemma FillsDraft(h: Escrow.Hashes, s: Escrow.Ledger, who: Address, ps: Params)
    requires Cheap(ps)
    requires s.jobs == map[OnlyJob(h, who) := Escrow.NewDraft(who, 0)] && s.tasks == map[]
    requires s.users == map[who := Escrow.User(1, 0, 100)]
    ensures var txs := LockSteps(h, who, ps);
            Locked(h, Escrow.Step(h, Escrow.Step(h, Escrow.Step(h, s, txs[2].tx), txs[3].tx), txs[4].tx), who, ps)
  {
    hide Escrow.ExecLock;
    hide Escrow.PricePerTask;
    var txs, id := LockSteps(h, who, ps), OnlyJob(h, who);
    var j := Escrow.NewDraft(who, 0).(timeout := ps.timeout, redundancy := ps.redundancy, maxFailures := ps.failures);
    var s3 := s.(jobs := map[id := j]);
    assert s.jobs[id := j] == s3.jobs;
    assert Escrow.Step(h, s, txs[2].tx) == s3;
    var j4 := j.(arguments := [[1]]);
    var s4 := s.(jobs := map[id := j4]);
    assert [] + [[1]] == [[1]];
    assert s3.jobs[id := j4] == s4.jobs;
    assert Escrow.Step(h, s3, txs[3].tx) == s4;
    LocksIt(h, s4, who, ps);
  }

  lemma LocksIt(h: Escrow.Hashes, s: Escrow.Ledger, who: Address, ps: Params)
    requires Cheap(ps)
    requires s.jobs == map[OnlyJob(h, who) := JobOf(who, ps).(isDraft := true)] && s.tasks == map[]
    requires s.users == map[who := Escrow.User(1, 0, 100)]
    ensures Locked(h, Escrow.Step(h, s, Escrow.Transaction(who, Escrow.Lock(OnlyJob(h, who)))), who, ps)
  {
    hide Escrow.PricePerTask;
    hide Escrow.MaxPrice;
    hide Escrow.LockTasks;
    hide U256;
    var id, j := OnlyJob(h, who), JobOf(who, ps);
    CheapEnough(who, ps);
    OneTask(h, who, ps, s.tasks);
    assert s.jobs[id := j] == map[id := j];
  }

  lemma OneTask(h: Escrow.Hashes, who: Address, ps: Params, tasks: map<Id, Escrow.Task>)
    requires tasks == map[]
    ensures Escrow.LockTasks(h, tasks, OnlyJob(h, who), 1)
            == Some(map[OnlyTask(h, who) := Escrow.FreshTask(OnlyJob(h, who), 0)])
  {
    assert Escrow.LockTasks(h, tasks, OnlyJob(h, who), 0) == Some(tasks);
  }

  lemma CheapEnough(who: Address, ps: Params)
    requires Cheap(ps)
    ensures Escrow.MaxPrice(JobOf(who, ps).(isDraft := true)) <= 100
  {
    hide Escrow.PricePerTask;
    PriceIsCheap(who, ps);
    var price: int := Escrow.PricePerTask(JobOf(who, ps).(isDraft := true));
    assert price * 1 == price;
  }

  lemma PriceIsCheap(who: Address, ps: Params)
    requires Cheap(ps)
    ensures Escrow.PricePerTask(JobOf(who, ps).(isDraft := true)) <= 100
  {
    hide U64;
    var t, r, f: int := ps.timeout, ps.redundancy, ps.failures;
    FewPaid(r, f);
    SmallPrice(t * 1, r, U64(r + f), t);
  }

  lemma FewPaid(r: nat, f: nat)
    requires 1 <= r <= 2 && (f == 0 || f == ENDLESS)
    ensures U64(r + f) <= 2
  {
  }

  /** The price of a task of `r` replicas, `paid` of them or of its failures being managed at 1 wei each. */
  lemma SmallPrice(t: nat, r: nat, paid: nat, timeout: nat)
    requires t <= 11 && 1 <= r <= 2 && paid <= 2 && timeout <= 11
    ensures U64(U64(U64(U64(t) + U64(0 * 1)) * r) + U64(U64(1 * paid) * U64(4 + timeout / 15))) <= 100
  {
    assert U64(t) == t && U64(0 * 1) == 0 && U64(U64(t) + U64(0 * 1)) == t;
    assert t * r <= 22 && U64(t * r) == t * r by { assert r == 1 || r == 2; }
    assert U64(1 * paid) == paid && 4 + timeout / 15 == 4 && U64(4 + timeout / 15) == 4;
    assert U64(paid * 4) == paid * 4;
  }

  // ---------------------------------------------------------------- a known task

  function NewTaskStep(h: Escrow.Hashes, who: Address, manager: Address): SystemStep {
    Proposed(Proposal(Some(manager), Some(OnlyTask(h, who)), NewTask(true)), 0)
  }

  /** The only task is open, with these replicas; `told` is what the node was told so far. */
  ghost predicate KnownTask(h: Escrow.Hashes, w: World, who: Address, ps: Params, subs: seq<Option<Assigned>>,
                            count: uint64, told: seq<(Id, Notice)>) {
    var id := OnlyTask(h, who);
    && Locked(h, w.ledger, who, ps)
    && w.shared.jobs == map[OnlyJob(h, who) := JobInfo(ps.redundancy, ps.failures)]
    && id in w.shared.tasks && w.shared.tasks[id].jobId == OnlyJob(h, who)
    && w.shared.tasks[id].completeness == Incomplete(subs) && w.shared.tasks[id].nbFailures == count
    && w.shared.notices == told
  }

  function Frees(n: nat): seq<Option<Assigned>> {
    seq(n, i => None)
  }

  function Told(id: Id, n: nat): seq<(Id, Notice)> {
    seq(n, i => (id, Pending))
  }

  lemma TaskKnown(h: Escrow.Hashes, oracle: Address, who: Address, manager: Address, ps: Params) returns (w: World)
    requires Cheap(ps)
    ensures RunWorld(h, oracle, Start(oracle), LockSteps(h, who, ps) + [NewTaskStep(h, who, manager)]) == Done(w)
    ensures KnownTask(h, w, who, ps, Frees(ps.redundancy), 0, Told(OnlyTask(h, who), ps.redundancy))
  {
    hide RunWorld;
    hide Sort;
    var id, job := OnlyTask(h, who), OnlyJob(h, who);
    LockRuns(h, oracle, who, ps);
    RunMore(h, oracle, LockSteps(h, who, ps), NewTaskStep(h, who, manager));
    var w0 := RunWorld(h, oracle, Start(oracle), LockSteps(h, who, ps)).world;
    var create := Create(job, 0, Some(JobInfo(ps.redundancy, ps.failures)));
    var env := Env(h, oracle, 0);
    assert HandleNewTask(w0, id, true) == Accept([create]);
    assert [create] + [AddManager] == [create, AddManager];
    SortOfSorted([create, AddManager]);
    ApplyTwo(env, w0, id, manager, create, AddManager);
    var w1 := Apply(env, w0, id, manager, create).world;
    assert w1.shared.tasks[id].completeness.substates == Frees(ps.redundancy);
    assert w1.shared.notices == Told(id, ps.redundancy);
    w := Apply(env, w1, id, manager, AddManager).world;
  }

  // ---------------------------------------------------------------- a task that fails for ever

  const PATIENT := Params(10, 1, ENDLESS)

  function FailStep(h: Escrow.Hashes, who: Address, manager: Address, n: nat): SystemStep {
    Proposed(Proposal(Some(manager), Some(OnlyTask(h, who)), Failure(U64(n), IncorrectResults)), 0)
  }

  /** The task is proposed, and then fails `n` times for incorrect results. */
  function FailSteps(h: Escrow.Hashes, who: Address, manager: Address, n: nat): seq<SystemStep> {
    LockSteps(h, who, PATIENT) + [NewTaskStep(h, who, manager)] + seq(n, i requires 0 <= i => FailStep(h, who, manager, i + 1))
  }

  lemma OneMoreFailure(env: Env, w: World, who: Address, manager: Address, count: uint64, told: seq<(Id, Notice)>)
    requires KnownTask(env.h, w, who, PATIENT, [None], count, told)
    ensures var r := Propose(env, w, FailStep(env.h, who, manager, count + 1).proposal);
            r.Done? && KnownTask(env.h, r.world, who, PATIENT, [None], U64(count + 1), told)
  {
    hide Sort;
    var id, nb := OnlyTask(env.h, who), U64(count + 1);
    var subs: seq<Option<Assigned>> := [None];
    assert WorkersOf(subs) == [] by { assert subs[..0] == []; }
    var counted := SetNbFailures(nb);
    assert HandleFailure(w, id, nb, IncorrectResults) == Accept([counted]) by { assert [counted] + UnassignAll([]) == [counted]; }
    SortFailure(nb, [], []);
    assert [counted] + UnassignAll([]) + [] + [AddManager] == [counted] + [AddManager];
    assert UnassignAll([]) + [AddManager, counted] + [] == [AddManager, counted];
    ApplyTwo(env, w, id, manager, AddManager, counted);
  }

  lemma {:induction false} FailsOften(h: Escrow.Hashes, oracle: Address, who: Address, manager: Address, n: nat)
    ensures var r := RunWorld(h, oracle, Start(oracle), FailSteps(h, who, manager, n));
            r.Done? && KnownTask(h, r.world, who, PATIENT, [None], U64(n), [(OnlyTask(h, who), Pending)])
  {
    hide RunWorld;
    hide Propose;
    hide KnownTask;
    if n == 0 {
      var w := TaskKnown(h, oracle, who, manager, PATIENT);
      assert Frees(1) == [None] && Told(OnlyTask(h, who), 1) == [(OnlyTask(h, who), Pending)];
      assert FailSteps(h, who, manager, 0) == LockSteps(h, who, PATIENT) + [NewTaskStep(h, who, manager)];
    } else {
      FailsOften(h, oracle, who, manager, n - 1);
      var w := RunWorld(h, oracle, Start(oracle), FailSteps(h, who, manager, n - 1)).world;
      assert FailSteps(h, who, manager, n) == FailSteps(h, who, manager, n - 1) + [FailStep(h, who, manager, n)];
      RunMore(h, oracle, FailSteps(h, who, manager, n - 1), FailStep(h, who, manager, n));
      OneMoreFailure(Env(h, oracle, 0), w, who, manager, U64(n - 1), [(OnlyTask(h, who), Pending)]);
      assert U64(U64(n - 1) + 1) == U64(n);
      assert FailStep(h, who, manager, U64(n - 1) + 1) == FailStep(h, who, manager, n);
    }
  }

  /** In a reachable good state a task has failed 2^64 - 1 times; its next failure lowers the count to 0. */
  lemma CountWraps(h: Escrow.Hashes, oracle: Address, who: Address, manager: Address)
    ensures var r := RunWorld(h, oracle, Start(oracle), FailSteps(h, who, manager, TWO64 - 1));
            var r' := RunWorld(h, oracle, Start(oracle), FailSteps(h, who, manager, TWO64));
            var id := OnlyTask(h, who);
            && r.Done? && WorldOk(h, r.world) && id in r.world.shared.tasks && r.world.shared.tasks[id].nbFailures == TWO64 - 1
            && r' == Propose(Env(h, oracle, 0), r.world, FailStep(h, who, manager, TWO64).proposal)
            && r'.Done? && id in r'.world.shared.tasks && r'.world.shared.tasks[id].nbFailures == 0
  {
    hide RunWorld;
    hide Propose;
    hide WorldOk;
    var steps := FailSteps(h, who, manager, TWO64 - 1);
    FailsOften(h, oracle, who, manager, TWO64 - 1);
    FailsOften(h, oracle, who, manager, TWO64);
    assert FailSteps(h, who, manager, TWO64) == steps + [FailStep(h, who, manager, TWO64)];
    RunMore(h, oracle, steps, FailStep(h, who, manager, TWO64));
    RunWorldOk(h, oracle, steps);
  }

  // ---------------------------------------------------------------- a late status

  const SINGLE := Params(10, 1, 0)

  function ScheduleStep(h: Escrow.Hashes, who: Address, manager: Address, p: PeerId, node: PeerId): SystemStep {
    var id := OnlyTask(h, who);
    Proposed(Proposal(Some(manager), Some(id), Scheduling([Offer(id, Some(manager), Some(p), Some(node), 1, 1)])), 0)
  }

  /** The worker is reported to have aborted. */
  function AbortStep(h: Escrow.Hashes, who: Address, manager: Address, p: PeerId): SystemStep {
    Proposed(Proposal(Some(manager), Some(OnlyTask(h, who)),
                      Failure(0, WorkerFailed(Some(WorkerMessage(Some(p), Some(WorkerError.Aborted)))))), 0)
  }

  /** The task is locked, proposed, and one worker gets a replica of it. */
  function AssignedSteps(h: Escrow.Hashes, who: Address, ps: Params, manager: Address, p: PeerId, node: PeerId): seq<SystemStep> {
    LockSteps(h, who, ps) + [NewTaskStep(h, who, manager)] + [ScheduleStep(h, who, manager, p, node)]
  }

  lemma AssignedRuns(h: Escrow.Hashes, oracle: Address, who: Address, ps: Params, manager: Address, p: PeerId, node: PeerId)
    returns (w: World)
    requires Cheap(ps)
    ensures RunWorld(h, oracle, Start(oracle), AssignedSteps(h, who, ps, manager, p, node)) == Done(w)
    ensures var id := OnlyTask(h, who);
            KnownTask(h, w, who, ps, Frees(ps.redundancy)[0 := Some(Replica(manager, p, node))], 0,
                      Told(id, ps.redundancy) + [(id, AssignedTo(p))])
    ensures WorldOk(h, w) && w.ledger.oracle == oracle
  {
    hide RunWorld;
    hide Propose;
    hide KnownTask;
    hide WorldOk;
    var known := LockSteps(h, who, ps) + [NewTaskStep(h, who, manager)];
    var w0 := TaskKnown(h, oracle, who, manager, ps);
    RunMore(h, oracle, known, ScheduleStep(h, who, manager, p, node));
    w := Schedules(Env(h, oracle, 0), w0, who, ps, manager, p, node);
    RunWorldOk(h, oracle, AssignedSteps(h, who, ps, manager, p, node));
  }

  function LostSteps(h: Escrow.Hashes, who: Address, manager: Address, p: PeerId, node: PeerId): seq<SystemStep> {
    AssignedSteps(h, who, SINGLE, manager, p, node) + [AbortStep(h, who, manager, p)]
  }

  function Replica(manager: Address, p: PeerId, node: PeerId): Assigned {
    Assigned(0, p, node, PaymentInfo(manager, 1, 1))
  }

  lemma Schedules(env: Env, w: World, who: Address, ps: Params, manager: Address, p: PeerId, node: PeerId) returns (w': World)
    requires env.now == 0 && ps.redundancy > 0
    requires KnownTask(env.h, w, who, ps, Frees(ps.redundancy), 0, Told(OnlyTask(env.h, who), ps.redundancy))
    ensures var id := OnlyTask(env.h, who);
            && Propose(env, w, ScheduleStep(env.h, who, manager, p, node).proposal) == Done(w')
            && KnownTask(env.h, w', who, ps, Frees(ps.redundancy)[0 := Some(Replica(manager, p, node))], 0,
                         Told(id, ps.redundancy) + [(id, AssignedTo(p))])
  {
    hide Sort;
    hide Free;
    hide Locked;
    var id, n := OnlyTask(env.h, who), ps.redundancy;
    var t := w.shared.tasks[id];
    var offers := [Offer(id, Some(manager), Some(p), Some(node), 1, 1)];
    var assign := AssignWorker(p, node, PaymentInfo(manager, 1, 1));
    FreesFree(n);
    assert !SharedState.AssignedTo(t.completeness, p);
    assert FindFree(Frees(n)) == 0 by { assert Frees(n)[0] == None; }
    assert Taken(t, offers) == offers;
    assert AssignAll(t, id, offers) == [assign];
    assert HandleScheduling(w, id, offers) == Accept([assign]);
    assert [assign] + [AddManager] == [assign, AddManager];
    SortOfSorted([assign, AddManager]);
    ApplyTwo(env, w, id, manager, assign, AddManager);
    var w1 := Apply(env, w, id, manager, assign).world;
    assert w1.shared.tasks[id].completeness == Incomplete(Frees(n)[0 := Some(Replica(manager, p, node))]);
    assert w1.shared.notices == Told(id, n) + [(id, AssignedTo(p))];
    w' := Apply(env, w1, id, manager, AddManager).world;
  }

  lemma FreesFree(n: nat)
    ensures Free(Frees(n)) == n
  {
    FreshFree(n);
    assert Frees(n) == seq(n, i => None);
  }

  lemma Loses(env: Env, w: World, who: Address, manager: Address, p: PeerId, node: PeerId)
    requires var id := OnlyTask(env.h, who);
             KnownTask(env.h, w, who, SINGLE, [Some(Replica(manager, p, node))], 0, [(id, Pending), (id, AssignedTo(p))])
    ensures var id := OnlyTask(env.h, who);
            var r := Propose(env, w, AbortStep(env.h, who, manager, p).proposal);
            r.Done? && r.world.shared.notices
                       == [(id, Pending), (id, AssignedTo(p)), (id, UnassignedFrom(p, node)), (id, Pending)]
  {
    hide Sort;
    hide Apply;
    var id, replica := OnlyTask(env.h, who), Some(Replica(manager, p, node));
    var subs: seq<Option<Assigned>> := [replica];
    assert WorkersOf(subs) == [p] by { assert subs[..0] == []; }
    var counted, free := SetNbFailures(0), UnassignWorker(p);
    assert UnassignAll([p]) == [free];
    assert [counted] + [free] == [counted, free];
    assert HandleFailure(w, id, 0, AbortStep(env.h, who, manager, p).proposal.kind.kind) == Accept([counted, free]);
    SortFailure(0, [p], []);
    assert [counted] + UnassignAll([p]) + [] + [AddManager] == [counted, free] + [AddManager];
    assert UnassignAll([p]) + [AddManager, counted] + [] == [free] + [AddManager, counted];
    ApplyAllAppend(env, w, id, manager, [free], [AddManager, counted]);
    ApplyOne(env, w, id, manager, free);
    FreesReplica(env, w, id, manager, replica.value);
    var w1 := Apply(env, w, id, manager, free).world;
    ApplyTwo(env, w1, id, manager, AddManager, counted);
    QuietApply(env, w1, id, manager, 0);
  }

  lemma FreesReplica(env: Env, w: World, id: Id, manager: Address, a: Assigned)
    requires id in w.shared.tasks && w.shared.tasks[id].completeness == Incomplete([Some(a)])
    ensures var r := Apply(env, w, id, manager, UnassignWorker(a.worker));
            && r.Done? && Open(r.world, id)
            && r.world.shared.notices == w.shared.notices + [(id, UnassignedFrom(a.worker, a.workersManager)), (id, Pending)]
  {
    assert Holds([Some(a)][0], a.worker);
  }

  lemma QuietApply(env: Env, w: World, id: Id, manager: Address, nb: uint64)
    requires Open(w, id)
    ensures var r := Apply(env, w, id, manager, AddManager);
            && r.Done? && Open(r.world, id)
            && var r' := Apply(env, r.world, id, manager, SetNbFailures(nb));
               r'.Done? && r'.world.shared.notices == w.shared.notices
  {
  }

  /** A manager with one slot for the worker hears of the task, of its assignment and of its loss. */
  function HearSteps(h: Escrow.Hashes, who: Address, p: PeerId, node: PeerId): seq<SlotMirror.SlotStep> {
    var id := OnlyTask(h, who);
    [SlotMirror.Join(p, 1), SlotMirror.Hear(id, Pending), SlotMirror.Hear(id, AssignedTo(p)),
     SlotMirror.Hear(id, UnassignedFrom(p, node))]
  }

  lemma LostRuns(h: Escrow.Hashes, oracle: Address, who: Address, manager: Address, p: PeerId, node: PeerId)
    ensures var r := RunWorld(h, oracle, Start(oracle), LostSteps(h, who, manager, p, node));
            var id := OnlyTask(h, who);
            r.Done? && r.world.shared.notices
                       == [(id, Pending), (id, AssignedTo(p)), (id, UnassignedFrom(p, node)), (id, Pending)]
  {
    hide RunWorld;
    hide Propose;
    hide KnownTask;
    hide WorldOk;
    var id := OnlyTask(h, who);
    var w := AssignedRuns(h, oracle, who, SINGLE, manager, p, node);
    assert Frees(1)[0 := Some(Replica(manager, p, node))] == [Some(Replica(manager, p, node))];
    assert Told(id, 1) + [(id, AssignedTo(p))] == [(id, Pending), (id, AssignedTo(p))];
    RunMore(h, oracle, AssignedSteps(h, who, SINGLE, manager, p, node), AbortStep(h, who, manager, p));
    Loses(Env(h, oracle, 0), w, who, manager, p, node);
  }

  /**
   A worker that really works on a task, loses it, and then reports: everything its manager hears is
   told by the oracle in a run from deployment, and the report makes the manager panic.
   */
  lemma LateStatusHappens(h: Escrow.Hashes, oracle: Address, who: Address, manager: Address, p: PeerId, node: PeerId)
    ensures forall i | 0 <= i < |LostSteps(h, who, manager, p, node)| :: NodeOnly(oracle, LostSteps(h, who, manager, p, node)[i])
    ensures var r := RunWorld(h, oracle, Start(oracle), LostSteps(h, who, manager, p, node));
            r.Done? && SlotMirror.Heard(HearSteps(h, who, p, node)) <= r.world.shared.notices
    ensures var id, steps := OnlyTask(h, who), HearSteps(h, who, p, node);
            var working := SlotMirror.AfterSlotRun(steps[..3]);
            && working.Some? && SlotMirror.Work(working.value, p, id) == 1
            && SlotMirror.AfterSlotRun(steps).Some?
            && SlotMirror.AfterSlotRun(steps + [SlotMirror.Status(p, id)]).None?
  {
    hide RunWorld;
    LostRuns(h, oracle, who, manager, p, node);
    HearRuns(h, who, p, node);
  }

  lemma HearRuns(h: Escrow.Hashes, who: Address, p: PeerId, node: PeerId)
    ensures var id, steps := OnlyTask(h, who), HearSteps(h, who, p, node);
            && SlotMirror.Heard(steps) == [(id, Pending), (id, AssignedTo(p)), (id, UnassignedFrom(p, node))]
            && SlotMirror.AfterSlotRun(steps[..3]).Some?
            && SlotMirror.Work(SlotMirror.AfterSlotRun(steps[..3]).value, p, id) == 1
            && SlotMirror.AfterSlotRun(steps).Some?
            && SlotMirror.AfterSlotRun(steps + [SlotMirror.Status(p, id)]).None?
  {
    hide SlotMirror.AfterSlotStep;
    hide SlotMirror.Work;
    var id, steps := OnlyTask(h, who), HearSteps(h, who, p, node);
    var a, b, c := [steps[0]], [steps[0]] + [steps[1]], [steps[0]] + [steps[1]] + [steps[2]];
    assert a == [] + [steps[0]] && steps[..3] == c && steps == c + [steps[3]];
    HearMore([], steps[0]);
    HearMore(a, steps[1]);
    HearMore(b, steps[2]);
    HearMore(c, steps[3]);
    HearMore(steps, SlotMirror.Status(p, id));
    HearTable(p, id, node);
  }

  lemma HearMore(steps: seq<SlotMirror.SlotStep>, step: SlotMirror.SlotStep)
    ensures SlotMirror.Heard(steps + [step])
            == SlotMirror.Heard(steps) + (if step.Hear? then [(step.id, step.notice)] else [])
    ensures var before := SlotMirror.AfterSlotRun(steps);
            SlotMirror.AfterSlotRun(steps + [step])
            == if before.None? then None else SlotMirror.AfterSlotStep(before.value, step)
  {
    assert (steps + [step])[..|steps|] == steps;
  }

  lemma HearTable(p: PeerId, id: Id, node: PeerId)
    ensures var free, busy := [Workers.WorkerData(p, [Workers.Available])], [Workers.WorkerData(p, [Workers.Assigned(id)])];
            && SlotMirror.AfterSlotStep([], SlotMirror.Join(p, 1)) == Some(free)
            && SlotMirror.AfterSlotStep(free, SlotMirror.Hear(id, Pending)) == Some(free)
            && SlotMirror.AfterSlotStep(free, SlotMirror.Hear(id, AssignedTo(p))) == Some(busy)
            && SlotMirror.AfterSlotStep(busy, SlotMirror.Hear(id, UnassignedFrom(p, node))) == Some(free)
            && SlotMirror.Work(busy, p, id) == 1
            && SlotMirror.AfterSlotStep(free, SlotMirror.Status(p, id)).None?
  {
    hide Workers.Assign;
    hide Workers.Unassign;
    var free, busy: seq<Workers.Slot> := [Workers.Available], [Workers.Assigned(id)];
    var idle, working := Workers.WorkerData(p, free), Workers.WorkerData(p, busy);
    assert seq(1, i => Workers.Available) == free && [] + [idle] == [idle];
    assert [idle][0 := working] == [working] && [working][0 := idle] == [idle];
    assert Workers.FindPeer([idle], p) == 0 == Workers.FindPeer([working], p);
    OneSlot(id);
  }

  lemma OneSlot(id: Id)
    ensures Workers.Assign([Workers.Available], id) == Some([Workers.Assigned(id)])
    ensures Workers.Unassign([Workers.Assigned(id)], id) == Some([Workers.Available])
    ensures Workers.Unassign([Workers.Available], id) == None
    ensures Workers.Count([Workers.Assigned(id)], Workers.Assigned(id)) == 1
  {
    var free, busy: seq<Workers.Slot> := [Workers.Available], [Workers.Assigned(id)];
    assert IndexOf(free, Workers.Pending) == 1 && IndexOf(free, Workers.Available) == 0;
    assert IndexOf(busy, Workers.Assigned(id)) == 0 && IndexOf(free, Workers.Assigned(id)) == 1;
    assert free[0 := Workers.Assigned(id)] == busy && busy[0 := Workers.Available] == free;
    assert busy[..0] == [];
  }

  // ---------------------------------------------------------------- proposals that stop the oracle

  /** A proposal that halts the oracle at the end of a run does stop it. */
  lemma Stops(h: Escrow.Hashes, oracle: Address, steps: seq<SystemStep>, w: World, proposal: Proposal)
    requires RunWorld(h, oracle, Start(oracle), steps) == Done(w) && WorldOk(h, w)
    requires Halts(Env(h, oracle, 0), w, proposal)
    ensures RunWorld(h, oracle, Start(oracle), steps + [Proposed(proposal, 0)]).Stop?
  {
    hide RunWorld;
    hide Propose;
    hide WorldOk;
    hide Halts;
    RunMore(h, oracle, steps, Proposed(proposal, 0));
    ProposeOutcome(Env(h, oracle, 0), w, proposal);
  }

  /** The worker is reported to have a result. */
  function Report(h: Escrow.Hashes, who: Address, manager: Address, p: PeerId, result: Bytes): Proposal {
    var id := OnlyTask(h, who);
    Proposal(Some(manager), Some(id), Completion(Some(SelectedResult(id, Some(p), id, Some(result)))))
  }

  lemma Reported(h: Escrow.Hashes, w: World, who: Address, ps: Params, manager: Address, p: PeerId, node: PeerId,
                 told: seq<(Id, Notice)>, result: Bytes)
    requires ps.redundancy > 0
    requires KnownTask(h, w, who, ps, Frees(ps.redundancy)[0 := Some(Replica(manager, p, node))], 0, told)
    ensures Handle(Env(h, w.ledger.oracle, 0), w, OnlyTask(h, who), Report(h, who, manager, p, result).kind)
            == Accept([Complete(result)])
  {
    var subs := Frees(ps.redundancy)[0 := Some(Replica(manager, p, node))];
    assert Holds(subs[0], p);
  }

  /** An empty result. */
  lemma EmptyResultStops(h: Escrow.Hashes, oracle: Address, who: Address, manager: Address, p: PeerId, node: PeerId)
    ensures var steps := AssignedSteps(h, who, SINGLE, manager, p, node);
            && RunWorld(h, oracle, Start(oracle), steps).Done?
            && RunWorld(h, oracle, Start(oracle), steps + [Proposed(Report(h, who, manager, p, []), 0)]).Stop?
  {
    hide RunWorld;
    hide WorldOk;
    var w := AssignedRuns(h, oracle, who, SINGLE, manager, p, node);
    var told := w.shared.notices;
    Reported(h, w, who, SINGLE, manager, p, node, told, []);
    Stops(h, oracle, AssignedSteps(h, who, SINGLE, manager, p, node), w, Report(h, who, manager, p, []));
  }

  const DOUBLE := Params(10, 2, 0)

  /** A result while a replica is free. */
  lemma FreeReplicaStops(h: Escrow.Hashes, oracle: Address, who: Address, manager: Address, p: PeerId, node: PeerId)
    ensures var steps := AssignedSteps(h, who, DOUBLE, manager, p, node);
            && RunWorld(h, oracle, Start(oracle), steps).Done?
            && RunWorld(h, oracle, Start(oracle), steps + [Proposed(Report(h, who, manager, p, [1]), 0)]).Stop?
  {
    hide RunWorld;
    hide WorldOk;
    var w := AssignedRuns(h, oracle, who, DOUBLE, manager, p, node);
    Reported(h, w, who, DOUBLE, manager, p, node, w.shared.notices, [1]);
    FreesFree(2);
    FreeUpdate(Frees(2), 0, Some(Replica(manager, p, node)));
    Stops(h, oracle, AssignedSteps(h, who, DOUBLE, manager, p, node), w, Report(h, who, manager, p, [1]));
  }

  /** Two offers of one worker. */
  function Twice(h: Escrow.Hashes, who: Address, manager: Address, p: PeerId, node: PeerId): Proposal {
    var id := OnlyTask(h, who);
    var offer := Offer(id, Some(manager), Some(p), Some(node), 1, 1);
    Proposal(Some(manager), Some(id), Scheduling([offer, offer]))
  }

  lemma RepeatedWorkerStops(h: Escrow.Hashes, oracle: Address, who: Address, manager: Address, p: PeerId, node: PeerId)
    ensures var steps := LockSteps(h, who, DOUBLE) + [NewTaskStep(h, who, manager)];
            && RunWorld(h, oracle, Start(oracle), steps).Done?
            && RunWorld(h, oracle, Start(oracle), steps + [Proposed(Twice(h, who, manager, p, node), 0)]).Stop?
  {
    hide RunWorld;
    hide WorldOk;
    hide Free;
    var steps := LockSteps(h, who, DOUBLE) + [NewTaskStep(h, who, manager)];
    var w := TaskKnown(h, oracle, who, manager, DOUBLE);
    RunWorldOk(h, oracle, steps);
    FreesFree(2);
    var id, proposal := OnlyTask(h, who), Twice(h, who, manager, p, node);
    var t, offers := w.shared.tasks[id], proposal.kind.offers;
    assert !SharedState.AssignedTo(t.completeness, p);
    assert Taken(t, offers) == offers;
    assert OfferOk(t, id, offers[0]) && OfferOk(t, id, offers[1]);
    var workers := OfferWorkers(t, id, offers);
    assert workers[0] == workers[1];
    Stops(h, oracle, steps, w, proposal);
  }

  /** With a timeout of 11 seconds and the default interval of 15, no manager can be registered. */
  const UNMANAGED := Params(11, 1, 0)

  lemma TooManyManagersStops(h: Escrow.Hashes, oracle: Address, who: Address, manager: Address, p: PeerId, node: PeerId)
    ensures var steps := AssignedSteps(h, who, UNMANAGED, manager, p, node);
            var failure := Proposal(Some(manager), Some(OnlyTask(h, who)), Failure(1, IncorrectResults));
            && RunWorld(h, oracle, Start(oracle), steps).Done?
            && RunWorld(h, oracle, Start(oracle), steps + [Proposed(Report(h, who, manager, p, [1]), 0)]).Stop?
            && RunWorld(h, oracle, Start(oracle), steps + [Proposed(failure, 0)]).Stop?
  {
    hide RunWorld;
    hide WorldOk;
    var steps := AssignedSteps(h, who, UNMANAGED, manager, p, node);
    var w := AssignedRuns(h, oracle, who, UNMANAGED, manager, p, node);
    Reported(h, w, who, UNMANAGED, manager, p, node, w.shared.notices, [1]);
    assert TooManyManagers(w, OnlyTask(h, who));
    Stops(h, oracle, steps, w, Report(h, who, manager, p, [1]));
    Stops(h, oracle, steps, w, Proposal(Some(manager), Some(OnlyTask(h, who)), Failure(1, IncorrectResults)));
  }
}

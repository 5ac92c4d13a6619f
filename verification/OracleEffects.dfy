/**
 Every kind of proposal, without its handler: when it is accepted, and what exactly it does to the replicas,
 to the contract, and to what the managers are told.
 */
module OracleEffects {
  import opened Base
  import opened SharedState
  import opened Oracle
  import opened OracleChanges
  import opened OracleChain
  import opened OracleSafety
  import Escrow
  import EscrowSafety

  type Replicas = seq<Option<Assigned>>

  // ---------------------------------------------------------------- replicas

  ghost predicate Has(subs: Replicas, worker: PeerId) {
    exists i :: 0 <= i < |subs| && subs[i].Some? && subs[i].value.worker == worker
  }

  lemma AssignedIff(c: Completeness, worker: PeerId)
    ensures SharedState.AssignedTo(c, worker) <==> c.Incomplete? && Has(c.substates, worker)
  {
    if c.Incomplete? && Has(c.substates, worker) {
      var i :| 0 <= i < |c.substates| && c.substates[i].Some? && c.substates[i].value.worker == worker;
      assert Holds(c.substates[i], worker);
    }
  }

  lemma {:induction false} FreeIsCount(subs: Replicas)
    ensures Free(subs) == multiset(subs)[None]
  {
    if subs != [] {
      var n := |subs| - 1;
      FreeIsCount(subs[..n]);
      assert subs == subs[..n] + [subs[n]];
    }
  }

  /** The replicas of the workers in `gone` are free, and all others as before. */
  ghost predicate Cleared(subs: Replicas, subs': Replicas, gone: set<PeerId>) {
    && |subs'| == |subs|
    && forall i | 0 <= i < |subs| ::
         subs'[i] == if subs[i].Some? && subs[i].value.worker in gone then None else subs[i]
  }

  /** The managers of the workers in the list are told, each of its own worker, and then that a replica is free. */
  ghost predicate ToldReleased(subs: Replicas, id: Id, workers: seq<PeerId>, more: seq<(Id, Notice)>) {
    && |more| == 2 * |workers|
    && forall k | 0 <= k < |workers| ::
         && ToldOf(subs, id, workers[k], more[2 * k])
         && more[2 * k + 1] == (id, Pending)
  }

  ghost predicate ToldOf(subs: Replicas, id: Id, worker: PeerId, told: (Id, Notice)) {
    exists i :: 0 <= i < |subs| && subs[i].Some? && subs[i].value.worker == worker
                && told == (id, UnassignedFrom(worker, subs[i].value.workersManager))
  }

  /** The contract, the jobs and the other tasks are as before. */
  ghost predicate Elsewhere(w: World, w': World, id: Id) {
    && w'.ledger == w.ledger && w'.shared.jobs == w.shared.jobs
    && id in w'.shared.tasks && w'.shared.tasks == w.shared.tasks[id := w'.shared.tasks[id]]
  }

  ghost function Gone(workers: seq<PeerId>): set<PeerId> {
    set p | p in workers
  }

  /** Exactly these workers have lost their replica, and their managers were told; nothing else happened. */
  ghost predicate Releases(w: World, w': World, id: Id, workers: seq<PeerId>) {
    && Open(w, id) && Open(w', id) && SameBooks(w, w', id) && Elsewhere(w, w', id)
    && Distinct(Subs(w', id)) && Cleared(Subs(w, id), Subs(w', id), Gone(workers))
    && w.shared.notices <= w'.shared.notices
    && ToldReleased(Subs(w, id), id, workers, w'.shared.notices[|w.shared.notices|..])
  }

  lemma ReleaseOne(env: Env, w: World, id: Id, manager: Address, worker: PeerId)
    requires Open(w, id) && Distinct(Subs(w, id)) && Has(Subs(w, id), worker)
    ensures var r := Apply(env, w, id, manager, UnassignWorker(worker));
            r.Done? && Releases(w, r.world, id, [worker])
  {
    var c := w.shared.tasks[id].completeness;
    AssignedIff(c, worker);
    UnassignKeeps(c, worker);
    var i := FindWorker(c.substates, worker);
    assert c.substates[i].value.worker == worker;
    assert Gone([worker]) == {worker};
    var told := [(id, UnassignedFrom(worker, c.substates[i].value.workersManager)), (id, Pending)];
    var w' := Apply(env, w, id, manager, UnassignWorker(worker)).world;
    assert w'.shared.notices == w.shared.notices + told;
  }

  lemma ReleaseNone(w: World, id: Id)
    requires Open(w, id) && Distinct(Subs(w, id))
    ensures Releases(w, w, id, [])
  {
  }

  lemma {:induction false} ReleaseAll(env: Env, w: World, id: Id, manager: Address, workers: seq<PeerId>)
    requires Open(w, id) && Distinct(Subs(w, id)) && NoRepeat(workers)
    requires forall i | 0 <= i < |workers| :: Has(Subs(w, id), workers[i])
    ensures var r := ApplyAll(env, w, id, manager, UnassignAll(workers));
            r.Done? && Releases(w, r.world, id, workers)
  {
    hide Apply;
    hide Releases;
    hide Has;
    if workers == [] {
      ReleaseNone(w, id);
    } else {
      var n := |workers| - 1;
      var front, last := workers[..n], workers[n];
      ReleaseAll(env, w, id, manager, front);
      assert UnassignAll(workers)[..n] == UnassignAll(front);
      var w1 := ApplyAll(env, w, id, manager, UnassignAll(front)).world;
      ReleasedBefore(w, w1, id, front, last);
      ReleaseOne(env, w1, id, manager, last);
      var r := Apply(env, w1, id, manager, UnassignWorker(last));
      assert ApplyAll(env, w, id, manager, UnassignAll(workers)) == r;
      ReleaseMore(w, w1, r.world, id, workers);
    }
  }

  lemma ReleasedBefore(w: World, w1: World, id: Id, front: seq<PeerId>, last: PeerId)
    requires Releases(w, w1, id, front) && Has(Subs(w, id), last) && last !in front
    ensures Open(w1, id) && Distinct(Subs(w1, id)) && Has(Subs(w1, id), last)
  {
    StillHas(Subs(w, id), Subs(w1, id), Gone(front), last);
  }

  lemma ReleaseMore(w: World, w1: World, w2: World, id: Id, workers: seq<PeerId>)
    requires workers != [] && Releases(w, w1, id, workers[..|workers| - 1]) && Releases(w1, w2, id, [workers[|workers| - 1]])
    ensures Releases(w, w2, id, workers)
  {
    hide Cleared;
    hide ToldReleased;
    hide Distinct;
    var n := |workers| - 1;
    var front, last := workers[..n], workers[n];
    assert Gone(workers) == Gone(front) + {last} by { assert workers == front + [last]; }
    assert Gone([last]) == {last};
    ClearedTwice(Subs(w, id), Subs(w1, id), Subs(w2, id), Gone(front), last);
    var a, b, c := w.shared.notices, w1.shared.notices, w2.shared.notices;
    assert c[|a|..] == b[|a|..] + c[|b|..];
    ToldMore(Subs(w, id), Subs(w1, id), id, workers, Gone(front), b[|a|..], c[|b|..]);
  }

  lemma StillHas(subs: Replicas, subs': Replicas, gone: set<PeerId>, worker: PeerId)
    requires Cleared(subs, subs', gone) && Has(subs, worker) && worker !in gone
    ensures Has(subs', worker)
  {
    var i :| 0 <= i < |subs| && subs[i].Some? && subs[i].value.worker == worker;
    assert subs'[i] == subs[i];
  }

  lemma ClearedTwice(subs: Replicas, subs1: Replicas, subs2: Replicas, gone: set<PeerId>, worker: PeerId)
    requires Cleared(subs, subs1, gone) && Cleared(subs1, subs2, {worker})
    ensures Cleared(subs, subs2, gone + {worker})
  {
  }

  lemma ToldMore(subs: Replicas, subs1: Replicas, id: Id, workers: seq<PeerId>, gone: set<PeerId>,
                 more: seq<(Id, Notice)>, last: seq<(Id, Notice)>)
    requires workers != [] && ToldReleased(subs, id, workers[..|workers| - 1], more) && Cleared(subs, subs1, gone)
    requires ToldReleased(subs1, id, [workers[|workers| - 1]], last)
    ensures ToldReleased(subs, id, workers, more + last)
  {
    var n := |workers| - 1;
    var all := more + last;
    forall k | 0 <= k < |workers| ensures ToldOf(subs, id, workers[k], all[2 * k]) && all[2 * k + 1] == (id, Pending) {
      if k < n {
        assert workers[..n][k] == workers[k] && all[2 * k] == more[2 * k] && all[2 * k + 1] == more[2 * k + 1];
      } else {
        assert all[2 * n] == last[2 * 0] && all[2 * n + 1] == last[2 * 0 + 1];
        assert ToldOf(subs1, id, [workers[n]][0], last[0]);
        var i :| 0 <= i < |subs1| && subs1[i].Some? && subs1[i].value.worker == workers[n]
                 && last[0] == (id, UnassignedFrom(workers[n], subs1[i].value.workersManager));
        assert subs[i] == subs1[i];
      }
    }
  }

  // ---------------------------------------------------------------- failures

  /**
   When a failure is right for an open task that has failed `nb` times: an error a worker reported counts one
   more, unless the task was aborted; a manager that does not answer counts nothing; wrong results count one
   more, and wrong specifications beyond the maximum. Below the maximum the worker blamed must hold a replica.
   */
  ghost predicate FailureRight(subs: Replicas, nb: uint64, max: uint64, id: Id, newNb: uint64, kind: FailureKind) {
    match kind
    case WorkerFailed(Some(WorkerMessage(worker, Some(error)))) =>
      && !error.Unknown?
      && newNb == (if error.Aborted? then nb else (nb + 1) % TWO64)
      && (nb >= max || (worker.Some? && Has(subs, worker.value)))
    case ManagerUnavailable(Some(UnansweredPing(about, worker))) =>
      about == id && newNb == nb && (nb >= max || (worker.Some? && Has(subs, worker.value)))
    case IncorrectResults => newNb == (nb + 1) % TWO64
    case IncorrectSpecs => newNb > max
    case _ => false
  }

  /** The worker a failure is about, if it is about one. */
  ghost function Blamed(kind: FailureKind): Option<PeerId> {
    match kind
    case WorkerFailed(Some(message)) => message.worker
    case ManagerUnavailable(Some(ping)) => ping.worker
    case _ => None
  }

  /** Below the maximum only the worker blamed loses its replica, otherwise everybody does. */
  ghost predicate Loses(nb: uint64, max: uint64, kind: FailureKind, worker: PeerId) {
    (kind.WorkerFailed? || kind.ManagerUnavailable?) && nb < max ==> Blamed(kind) == Some(worker)
  }

  /** The reason kept in memory, and the one stored on the contract. */
  ghost function ReasonOf(kind: FailureKind): Option<(DefiniteError, Escrow.ErrorKind)> {
    match kind
    case WorkerFailed(Some(WorkerMessage(_, Some(TimedOut)))) => Some((DefiniteError.TimedOut, Escrow.TimedOut))
    case WorkerFailed(Some(WorkerMessage(_, Some(Download)))) => Some((DefiniteError.Download, Escrow.Download))
    case WorkerFailed(Some(WorkerMessage(_, Some(Runtime)))) => Some((DefiniteError.Runtime, Escrow.Runtime))
    case IncorrectResults => Some((IncorrectResult, Escrow.IncorrectResult))
    case IncorrectSpecs => Some((IncorrectSpecification, Escrow.IncorrectSpecification))
    case _ => None
  }

  lemma FailureAcceptedIff(h: Escrow.Hashes, w: World, id: Id, newNb: uint64, kind: FailureKind)
    requires WorldOk(h, w)
    ensures HandleFailure(w, id, newNb, kind).Accept?
            <==> && Open(w, id) && w.shared.tasks[id].jobId in w.shared.jobs
                 && FailureRight(Subs(w, id), w.shared.tasks[id].nbFailures,
                                 w.shared.jobs[w.shared.tasks[id].jobId].maxFailures, id, newNb, kind)
    ensures !HandleFailure(w, id, newNb, kind).Panic?
  {
    hide WorldOk;
    hide FreeTold;
    hide BusyTold;
    hide FindWorker;
    hide Has;
    if id in w.shared.tasks {
      TaskFacts(h, w, id);
      var t := w.shared.tasks[id];
      if Blamed(kind).Some? { AssignedIff(t.completeness, Blamed(kind).value); }
    }
  }

  /** The managers of those who lose their replica are told, once each. */
  ghost predicate ToldLost(subs: Replicas, id: Id, nb: uint64, max: uint64, kind: FailureKind, more: seq<(Id, Notice)>) {
    exists workers: seq<PeerId> ::
      && NoRepeat(workers)
      && (forall p :: p in workers <==> Has(subs, p) && Loses(nb, max, kind, p))
      && ToldReleased(subs, id, workers, more)
  }

  /** Everything a failure with `newNb` failures changes. */
  ghost predicate FailureDone(w: World, w': World, id: Id, manager: Address, newNb: uint64, kind: FailureKind)
    requires Open(w, id) && w.shared.tasks[id].jobId in w.shared.jobs && id in w.ledger.tasks
  {
    var t, max := w.shared.tasks[id], w.shared.jobs[w.shared.tasks[id].jobId].maxFailures;
    && id in w'.shared.tasks && w'.shared.jobs == w.shared.jobs
    && w'.shared.tasks == w.shared.tasks[id := w'.shared.tasks[id]]
    && var t' := w'.shared.tasks[id];
       && t' == t.(completeness := t'.completeness, nbFailures := newNb, managers := t.managers + [manager])
       && w.shared.notices <= w'.shared.notices
       && ToldLost(Subs(w, id), id, t.nbFailures, max, kind, w'.shared.notices[|w.shared.notices|..])
       && if newNb <= max then
            && w'.ledger == w.ledger && Open(w', id) && |Subs(w', id)| == |Subs(w, id)|
            && forall i | 0 <= i < |Subs(w, id)| ::
                 Subs(w', id)[i] == if Subs(w, id)[i].Some? && Loses(t.nbFailures, max, kind, Subs(w, id)[i].value.worker)
                                    then None else Subs(w, id)[i]
          else
            && ReasonOf(kind).Some? && t'.completeness == DefinetelyFailed(ReasonOf(kind).value.0)
            && (forall p :: Loses(t.nbFailures, max, kind, p))
            && OnlyTask(w.ledger, w'.ledger, id, w.ledger.tasks[id].(managers := t'.managers,
                          state := Escrow.DefinetelyFailed, reason := ReasonOf(kind).value.1))
  }

  lemma BooksChange(env: Env, w: World, id: Id, manager: Address, nb: uint64)
    requires Open(w, id)
    ensures var t := w.shared.tasks[id];
            && Apply(env, w, id, manager, AddManager) == Done(WithTask(w, id, t.(managers := t.managers + [manager])))
            && Apply(env, w, id, manager, SetNbFailures(nb)) == Done(WithTask(w, id, t.(nbFailures := nb)))
  {
  }

  /** The workers released are those who lose their replica, each once. */
  lemma ReleasedLose(w: World, id: Id, max: uint64, newNb: uint64, kind: FailureKind)
    requires Open(w, id) && Distinct(Subs(w, id))
    requires BlameOf(w.shared.tasks[id], max, id, newNb, kind).Some?
    requires Released(w.shared.tasks[id], max, BlameOf(w.shared.tasks[id], max, id, newNb, kind).value.worker).Some?
    ensures var t := w.shared.tasks[id];
            var workers := Released(t, max, BlameOf(t, max, id, newNb, kind).value.worker).value;
            NoRepeat(workers) && forall p :: p in workers <==> Has(Subs(w, id), p) && Loses(t.nbFailures, max, kind, p)
  {
    hide FindWorker;
    hide Has;
    var t := w.shared.tasks[id];
    var workers := Released(t, max, BlameOf(t, max, id, newNb, kind).value.worker).value;
    WorkersOfAll(Subs(w, id));
    forall p ensures p in workers <==> Has(Subs(w, id), p) && Loses(t.nbFailures, max, kind, p) {
      AssignedIff(t.completeness, p);
    }
  }

  lemma ReasonFits(t: TaskData, max: uint64, id: Id, newNb: uint64, kind: FailureKind)
    requires t.nbFailures <= max < newNb && BlameOf(t, max, id, newNb, kind).Some?
    requires BlameOf(t, max, id, newNb, kind).value.countFits
    ensures ReasonOf(kind).Some?
    ensures BlameOf(t, max, id, newNb, kind).value.reason == Some(ReasonOf(kind).value.0)
    ensures ToContract(ReasonOf(kind).value.0) == Some(ReasonOf(kind).value.1)
    ensures forall p :: Loses(t.nbFailures, max, kind, p)
  {
  }

  lemma BooksApplied(env: Env, w: World, w1: World, id: Id, manager: Address, workers: seq<PeerId>, nb: uint64, end: seq<StateChange>)
    requires ApplyAll(env, w, id, manager, UnassignAll(workers)) == Done(w1) && Open(w1, id)
    requires |end| <= 1
    ensures var t1 := w1.shared.tasks[id];
            var w3 := WithTask(w1, id, t1.(managers := t1.managers + [manager], nbFailures := nb));
            ApplyAll(env, w, id, manager, UnassignAll(workers) + [AddManager, SetNbFailures(nb)] + end)
            == if end == [] then Done(w3) else Apply(env, w3, id, manager, end[0])
  {
    hide Apply;
    hide UnassignAll;
    var t1 := w1.shared.tasks[id];
    var w2 := WithTask(w1, id, t1.(managers := t1.managers + [manager]));
    BooksChange(env, w1, id, manager, nb);
    BooksChange(env, w2, id, manager, nb);
    var books := [AddManager, SetNbFailures(nb)];
    ApplyAllAppend(env, w, id, manager, UnassignAll(workers), books);
    ApplyTwo(env, w1, id, manager, AddManager, SetNbFailures(nb));
    ApplyAllAppend(env, w, id, manager, UnassignAll(workers) + books, end);
    var w3 := WithTask(w1, id, t1.(managers := t1.managers + [manager], nbFailures := nb));
    assert WithTask(w2, id, w2.shared.tasks[id].(nbFailures := nb)) == w3;
    if end != [] {
      assert end == [end[0]];
      ApplyOne(env, w3, id, manager, end[0]);
    }
  }

  lemma ToldThese(subs: Replicas, id: Id, nb: uint64, max: uint64, kind: FailureKind, workers: seq<PeerId>, more: seq<(Id, Notice)>)
    requires NoRepeat(workers) && forall p :: p in workers <==> Has(subs, p) && Loses(nb, max, kind, p)
    requires ToldReleased(subs, id, workers, more)
    ensures ToldLost(subs, id, nb, max, kind, more)
  {
  }

  lemma FailureGoesOn(w: World, w1: World, id: Id, manager: Address, newNb: uint64, kind: FailureKind, workers: seq<PeerId>)
    requires Releases(w, w1, id, workers) && w.shared.tasks[id].jobId in w.shared.jobs && id in w.ledger.tasks
    requires var t, max := w.shared.tasks[id], w.shared.jobs[w.shared.tasks[id].jobId].maxFailures;
             && newNb <= max && NoRepeat(workers)
             && forall p :: p in workers <==> Has(Subs(w, id), p) && Loses(t.nbFailures, max, kind, p)
    ensures var t1 := w1.shared.tasks[id];
            var w3 := WithTask(w1, id, t1.(managers := t1.managers + [manager], nbFailures := newNb));
            FailureDone(w, w3, id, manager, newNb, kind)
  {
    hide ToldReleased;
    hide ToldLost;
    hide Has;
    hide Loses;
    hide NoRepeat;
    var t, max := w.shared.tasks[id], w.shared.jobs[w.shared.tasks[id].jobId].maxFailures;
    var t1 := w1.shared.tasks[id];
    var w3 := WithTask(w1, id, t1.(managers := t1.managers + [manager], nbFailures := newNb));
    ToldThese(Subs(w, id), id, t.nbFailures, max, kind, workers, w1.shared.notices[|w.shared.notices|..]);
    forall i | 0 <= i < |Subs(w, id)|
      ensures Subs(w3, id)[i] == if Subs(w, id)[i].Some? && Loses(t.nbFailures, max, kind, Subs(w, id)[i].value.worker)
                                 then None else Subs(w, id)[i]
    {
      if Subs(w, id)[i].Some? { HasAt(Subs(w, id), i); }
    }
  }

  lemma HasAt(subs: Replicas, i: nat)
    requires i < |subs| && subs[i].Some?
    ensures Has(subs, subs[i].value.worker)
  {
  }

  lemma FailureEnds(env: Env, w: World, w1: World, w': World, id: Id, manager: Address, newNb: uint64, kind: FailureKind,
                    workers: seq<PeerId>)
    requires WorldOk(env.h, w) && Releases(w, w1, id, workers)
    requires w.shared.tasks[id].jobId in w.shared.jobs && id in w.ledger.tasks
    requires var t, max := w.shared.tasks[id], w.shared.jobs[w.shared.tasks[id].jobId].maxFailures;
             && newNb > max && NoRepeat(workers) && ReasonOf(kind).Some?
             && ToContract(ReasonOf(kind).value.0) == Some(ReasonOf(kind).value.1)
             && (forall p :: Loses(t.nbFailures, max, kind, p))
             && forall p :: p in workers <==> Has(Subs(w, id), p) && Loses(t.nbFailures, max, kind, p)
    requires var t1 := w1.shared.tasks[id];
             var w3 := WithTask(w1, id, t1.(managers := t1.managers + [manager], nbFailures := newNb));
             Apply(env, w3, id, manager, Fail(ReasonOf(kind).value.0)) == Done(w')
    ensures FailureDone(w, w', id, manager, newNb, kind)
  {
    hide ToldReleased;
    hide ToldLost;
    hide Has;
    hide Loses;
    hide NoRepeat;
    hide ReasonOf;
    hide FinishFailed;
    hide Cleared;
    hide OnlyTask;
    hide WorldOk;
    var t, max := w.shared.tasks[id], w.shared.jobs[w.shared.tasks[id].jobId].maxFailures;
    ToldThese(Subs(w, id), id, t.nbFailures, max, kind, workers, w1.shared.notices[|w.shared.notices|..]);
    OpenLedger(env.h, w, id);
    if env.me == w.ledger.oracle {
      FailIff(env, w.ledger, id, t.managers + [manager], ReasonOf(kind).value.0);
    } else {
      NotOracle(env, w.ledger, id, t.managers + [manager], [], [], ReasonOf(kind).value.0);
    }
  }

  lemma OpenLedger(h: Escrow.Hashes, w: World, id: Id)
    requires WorldOk(h, w) && Open(w, id)
    ensures EscrowSafety.Inv(h, w.ledger) && id in w.ledger.tasks
    ensures w.ledger.tasks[id].state == Escrow.Incomplete && w.ledger.tasks[id].managers == []
    ensures Distinct(Subs(w, id))
  {
    hide EscrowSafety.Inv;
    assert TaskShape(w, id);
  }

  lemma FailureEffect(env: Env, w: World, p: Proposal)
    requires WorldOk(env.h, w) && Well(p) && p.kind.Failure? && Handle(env, w, p.taskId.value, p.kind).Accept?
    requires Propose(env, w, p).Done?
    ensures var id := p.taskId.value;
            && Open(w, id) && w.shared.tasks[id].jobId in w.shared.jobs && id in w.ledger.tasks
            && FailureDone(w, Propose(env, w, p).world, id, p.payment.value, p.kind.newNbFailures, p.kind.kind)
  {
    hide WorldOk;
    hide FreeTold;
    hide BusyTold;
    hide Sort;
    hide Apply;
    hide HandleFailure;
    hide BlameOf;
    hide Released;
    hide Releases;
    hide Has;
    hide Loses;
    hide FailureDone;
    hide Elsewhere;
    hide FindWorker;
    hide NoRepeat;
    var id, manager, newNb, kind := p.taskId.value, p.payment.value, p.kind.newNbFailures, p.kind.kind;
    HandledTask(w, id, newNb, kind);
    FailureFacts(env, w, id, newNb, kind);
    TaskFacts(env.h, w, id);
    var t := w.shared.tasks[id];
    var max := w.shared.jobs[t.jobId].maxFailures;
    var blame := BlameOf(t, max, id, newNb, kind).value;
    var workers := Released(t, max, blame.worker).value;
    var end := if newNb > max then [Fail(blame.reason.value)] else [];
    SortFailure(newNb, workers, end);
    ReleasedLose(w, id, max, newNb, kind);
    ReleaseAll(env, w, id, manager, workers);
    var w1 := ApplyAll(env, w, id, manager, UnassignAll(workers)).world;
    ReleasesOpen(w, w1, id, workers);
    BooksApplied(env, w, w1, id, manager, workers, newNb, end);
    if newNb <= max {
      FailureGoesOn(w, w1, id, manager, newNb, kind, workers);
    } else {
      AcceptedCount(w, id, newNb, kind);
      ReasonFits(t, max, id, newNb, kind);
      FailureEnds(env, w, w1, Propose(env, w, p).world, id, manager, newNb, kind, workers);
    }
  }

  lemma ReleasesOpen(w: World, w1: World, id: Id, workers: seq<PeerId>)
    requires Releases(w, w1, id, workers)
    ensures Open(w1, id)
  {
  }

  lemma AcceptedCount(w: World, id: Id, newNb: uint64, kind: FailureKind)
    requires id in w.shared.tasks && w.shared.tasks[id].jobId in w.shared.jobs
    requires HandleFailure(w, id, newNb, kind).Accept?
    ensures var max := w.shared.jobs[w.shared.tasks[id].jobId].maxFailures;
            var blame := BlameOf(w.shared.tasks[id], max, id, newNb, kind);
            blame.Some? && blame.value.countFits
  {
    hide BlameOf;
    hide Released;
  }

  // ---------------------------------------------------------------- offers

  /** An offer that can be read, is about this task, and names a worker that holds no replica of it. */
  ghost predicate OfferRight(subs: Replicas, id: Id, o: Offer) {
    && o.taskId == id && o.payment.Some? && o.worker.Some? && o.workersManager.Some?
    && !Has(subs, o.worker.value)
  }

  /** As many offers are looked at as there are free replicas; all of these must be right. */
  lemma SchedulingAcceptedIff(w: World, id: Id, offers: seq<Offer>)
    ensures HandleScheduling(w, id, offers).Accept?
            <==> && Open(w, id) && multiset(Subs(w, id))[None] > 0
                 && forall i | 0 <= i < |offers| && i < multiset(Subs(w, id))[None] :: OfferRight(Subs(w, id), id, offers[i])
    ensures !HandleScheduling(w, id, offers).Panic?
  {
    hide Has;
    hide FindWorker;
    if Open(w, id) {
      FreeIsCount(Subs(w, id));
      var t := w.shared.tasks[id];
      var taken := Taken(t, offers);
      forall i | 0 <= i < |taken| ensures OfferOk(t, id, taken[i]) <==> OfferRight(Subs(w, id), id, taken[i]) {
        if taken[i].worker.Some? { AssignedIff(t.completeness, taken[i].worker.value); }
      }
      forall i | 0 <= i < |offers| && i < multiset(Subs(w, id))[None] ensures offers[i] == taken[i] {
      }
    }
  }

  /** The replica an offer becomes: checked now, for this worker, at these prices. */
  ghost function ReplicaOf(o: Offer, now: int): Option<Assigned> {
    if o.worker.Some? && o.workersManager.Some? && o.payment.Some? then
      Some(Assigned(now, o.worker.value, o.workersManager.value, PaymentInfo(o.payment.value, o.workerPrice, o.networkPrice)))
    else None
  }

  /** The first offers fill the first free replicas, in order; the replicas taken are as before. */
  ghost function Filled(subs: Replicas, offers: seq<Offer>, now: int): Replicas {
    if subs == [] then []
    else if subs[0].None? && offers != [] then [ReplicaOf(offers[0], now)] + Filled(subs[1..], offers[1..], now)
    else [subs[0]] + Filled(subs[1..], offers, now)
  }

  /** Everything an accepted list of offers changes; each worker is told. */
  ghost predicate SchedulingDone(w: World, w': World, id: Id, manager: Address, offers: seq<Offer>, now: int)
    requires Open(w, id)
  {
    && Elsewhere(w, w', id) && Open(w', id)
    && var t := w.shared.tasks[id];
       var n := if |offers| < multiset(Subs(w, id))[None] then |offers| else multiset(Subs(w, id))[None];
       && w'.shared.tasks[id] == t.(completeness := Incomplete(Filled(Subs(w, id), offers, now)), managers := t.managers + [manager])
       && |w'.shared.notices| == |w.shared.notices| + n && w.shared.notices <= w'.shared.notices
       && forall k | 0 <= k < n ::
            offers[k].worker.Some? && w'.shared.notices[|w.shared.notices| + k] == (id, AssignedTo(offers[k].worker.value))
  }

  /** One more offer fills one more replica. */
  lemma {:induction false} FilledOneMore(subs: Replicas, offers: seq<Offer>, o: Offer, now: int)
    requires forall i | 0 <= i < |offers| :: ReplicaOf(offers[i], now).Some?
    requires FindFree(Filled(subs, offers, now)) < |subs|
    ensures |Filled(subs, offers, now)| == |subs|
    ensures Filled(subs, offers + [o], now) == Filled(subs, offers, now)[FindFree(Filled(subs, offers, now)) := ReplicaOf(o, now)]
    decreases |subs|
  {
    hide FindFree;
    FilledLength(subs, offers, now);
    if subs != [] {
      if subs[0].None? && offers != [] {
        FilledLength(subs[1..], offers[1..], now);
        FilledRest(ReplicaOf(offers[0], now), Filled(subs[1..], offers[1..], now), ReplicaOf(o, now));
        assert forall i | 0 <= i < |offers| - 1 :: offers[1..][i] == offers[i + 1];
        FilledOneMore(subs[1..], offers[1..], o, now);
        assert (offers + [o])[1..] == offers[1..] + [o];
      } else if subs[0].None? {
        FilledFirst(subs, o, now);
      } else {
        FilledLength(subs[1..], offers, now);
        FilledRest(subs[0], Filled(subs[1..], offers, now), ReplicaOf(o, now));
        FilledOneMore(subs[1..], offers, o, now);
      }
    }
  }

  lemma FilledFirst(subs: Replicas, o: Offer, now: int)
    requires subs != [] && subs[0].None?
    ensures Filled(subs, [o], now) == subs[0 := ReplicaOf(o, now)]
    ensures Filled(subs, [], now) == subs && FindFree(subs) == 0
  {
    FilledNone(subs, now);
    FilledNone(subs[1..], now);
    assert [o][1..] == [];
    assert Filled(subs, [o], now) == [ReplicaOf(o, now)] + subs[1..];
  }

  /** The first free replica behind one that is taken. */
  lemma FilledRest(first: Option<Assigned>, rest: Replicas, s: Option<Assigned>)
    requires first.Some?
    ensures FindFree([first] + rest) == 1 + FindFree(rest)
    ensures FindFree(rest) < |rest| ==> ([first] + rest)[FindFree([first] + rest) := s] == [first] + rest[FindFree(rest) := s]
  {
    FreeAfterTaken([first] + rest);
    assert ([first] + rest)[1..] == rest;
  }

  lemma FreeAfterTaken(subs: Replicas)
    requires subs != [] && subs[0].Some?
    ensures FindFree(subs) == 1 + FindFree(subs[1..])
  {
  }

  lemma {:induction false} FilledNone(subs: Replicas, now: int)
    ensures Filled(subs, [], now) == subs
  {
    if subs != [] { FilledNone(subs[1..], now); }
  }

  lemma {:induction false} FilledLength(subs: Replicas, offers: seq<Offer>, now: int)
    ensures |Filled(subs, offers, now)| == |subs|
    decreases |subs|
  {
    if subs != [] {
      if subs[0].None? && offers != [] { FilledLength(subs[1..], offers[1..], now); }
      else { FilledLength(subs[1..], offers, now); }
    }
  }

  /** The replicas are filled and the workers told, all the rest is as before. */
  ghost predicate Fills(w: World, w': World, id: Id, offers: seq<Offer>, now: int) {
    && Open(w, id) && Open(w', id) && Elsewhere(w, w', id)
    && w'.shared.tasks[id] == w.shared.tasks[id].(completeness := Incomplete(Filled(Subs(w, id), offers, now)))
    && |w'.shared.notices| == |w.shared.notices| + |offers| && w.shared.notices <= w'.shared.notices
    && forall k | 0 <= k < |offers| ::
         offers[k].worker.Some? && w'.shared.notices[|w.shared.notices| + k] == (id, AssignedTo(offers[k].worker.value))
  }

  lemma FillOne(env: Env, w: World, w1: World, id: Id, manager: Address, offers: seq<Offer>, o: Offer)
    requires Fills(w, w1, id, offers, env.now)
    requires forall i | 0 <= i < |offers| :: ReplicaOf(offers[i], env.now).Some?
    requires o.payment.Some? && o.worker.Some? && o.workersManager.Some?
    requires Apply(env, w1, id, manager, AssignFor(o)).Done?
    ensures Fills(w, Apply(env, w1, id, manager, AssignFor(o)).world, id, offers + [o], env.now)
  {
    hide Filled;
    hide FindWorker;
    hide FindFree;
    var w2 := Apply(env, w1, id, manager, AssignFor(o)).world;
    FilledLength(Subs(w, id), offers, env.now);
    FilledOneMore(Subs(w, id), offers, o, env.now);
    assert w2.shared.notices == w1.shared.notices + [(id, AssignedTo(o.worker.value))];
  }

  lemma FillNone(w: World, id: Id, now: int)
    requires Open(w, id)
    ensures Fills(w, w, id, [], now)
  {
    FilledNone(Subs(w, id), now);
  }

  lemma {:induction false} FillAll(env: Env, w: World, id: Id, manager: Address, t: TaskData, offers: seq<Offer>)
    requires Open(w, id) && forall i | 0 <= i < |offers| :: OfferOk(t, id, offers[i])
    requires ApplyAll(env, w, id, manager, AssignAll(t, id, offers)).Done?
    ensures Fills(w, ApplyAll(env, w, id, manager, AssignAll(t, id, offers)).world, id, offers, env.now)
  {
    hide Apply;
    hide Fills;
    hide FindWorker;
    if offers == [] {
      FillNone(w, id, env.now);
    } else {
      var n := |offers| - 1;
      var front := offers[..n];
      assert AssignAll(t, id, offers)[..n] == AssignAll(t, id, front);
      FillAll(env, w, id, manager, t, front);
      var w1 := ApplyAll(env, w, id, manager, AssignAll(t, id, front)).world;
      assert OfferOk(t, id, offers[n]);
      forall i | 0 <= i < n ensures ReplicaOf(front[i], env.now).Some? { assert OfferOk(t, id, offers[i]); }
      FillOne(env, w, w1, id, manager, front, offers[n]);
      assert offers == front + [offers[n]];
    }
  }

  lemma {:induction false} FilledEnough(subs: Replicas, offers: seq<Offer>, n: nat, now: int)
    requires multiset(subs)[None] <= n <= |offers|
    ensures Filled(subs, offers[..n], now) == Filled(subs, offers, now)
    decreases |subs|
  {
    if subs != [] {
      assert subs == [subs[0]] + subs[1..];
      if subs[0].None? && offers != [] {
        assert offers[..n][1..] == offers[1..][..n - 1];
        FilledEnough(subs[1..], offers[1..], n - 1, now);
      } else {
        FilledEnough(subs[1..], offers, n, now);
      }
    }
  }

  lemma SchedulingEffect(env: Env, w: World, p: Proposal)
    requires WorldOk(env.h, w) && Well(p) && p.kind.Scheduling? && Handle(env, w, p.taskId.value, p.kind).Accept?
    requires Propose(env, w, p).Done?
    ensures Open(w, p.taskId.value)
    ensures SchedulingDone(w, Propose(env, w, p).world, p.taskId.value, p.payment.value, p.kind.offers, env.now)
  {
    hide WorldOk;
    hide Sort;
    hide Apply;
    hide Filled;
    hide FindWorker;
    hide Fills;
    hide SchedulingDone;
    hide AssignAll;
    var id, manager := p.taskId.value, p.payment.value;
    var t := w.shared.tasks[id];
    var taken := Taken(t, p.kind.offers);
    var assigns := AssignAll(t, id, taken);
    AssignsSorted(t, id, taken);
    ApplyAllAppend(env, w, id, manager, assigns, [AddManager]);
    FillAll(env, w, id, manager, t, taken);
    var w1 := ApplyAll(env, w, id, manager, assigns).world;
    ApplyOne(env, w1, id, manager, AddManager);
    FillsOpen(w, w1, id, taken, env.now);
    BooksChange(env, w1, id, manager, 0);
    FilledSchedule(w, w1, id, manager, p.kind.offers, env.now);
  }

  lemma AssignsSorted(t: TaskData, id: Id, offers: seq<Offer>)
    requires forall i | 0 <= i < |offers| :: OfferOk(t, id, offers[i])
    ensures Sort(AssignAll(t, id, offers) + [AddManager]) == AssignAll(t, id, offers) + [AddManager]
  {
    hide FindWorker;
    SortOfSorted(AssignAll(t, id, offers) + [AddManager]);
  }

  lemma FillsOpen(w: World, w1: World, id: Id, offers: seq<Offer>, now: int)
    requires Fills(w, w1, id, offers, now)
    ensures Open(w1, id)
  {
  }

  lemma FilledSchedule(w: World, w1: World, id: Id, manager: Address, offers: seq<Offer>, now: int)
    requires Open(w, id) && Fills(w, w1, id, Taken(w.shared.tasks[id], offers), now)
    ensures var t1 := w1.shared.tasks[id];
            SchedulingDone(w, WithTask(w1, id, t1.(managers := t1.managers + [manager])), id, manager, offers, now)
  {
    hide Filled;
    FreeIsCount(Subs(w, id));
    if Free(Subs(w, id)) < |offers| { FilledEnough(Subs(w, id), offers, Free(Subs(w, id)), now); }
  }

  // ---------------------------------------------------------------- checks

  /** A worker that holds a replica is checked when the interval of the job has passed since its last check. */
  ghost predicate CheckRight(env: Env, w: World, id: Id, worker: PeerId, i: nat)
    requires Open(w, id)
  {
    && i < |Subs(w, id)| && Subs(w, id)[i].Some? && Subs(w, id)[i].value.worker == worker
    && env.now >= Subs(w, id)[i].value.lastCheck
    && w.shared.tasks[id].jobId in w.ledger.jobs
    && env.now - Subs(w, id)[i].value.lastCheck >= w.ledger.jobs[w.shared.tasks[id].jobId].minCheckingInterval
  }

  lemma CheckAcceptedIff(env: Env, w: World, id: Id, worker: Option<PeerId>)
    requires WorldOk(env.h, w)
    ensures HandleChecked(env, w, id, worker).Accept?
            <==> Open(w, id) && worker.Some? && exists i: nat :: CheckRight(env, w, id, worker.value, i)
    ensures !HandleChecked(env, w, id, worker).Panic?
  {
    hide WorldOk;
    hide FreeTold;
    hide BusyTold;
    if Open(w, id) && worker.Some? {
      TaskFacts(env.h, w, id);
      var subs, k := Subs(w, id), FindWorker(Subs(w, id), worker.value);
      if k < |subs| { assert subs[k].value.worker == worker.value; }
      if i: nat :| CheckRight(env, w, id, worker.value, i) {
        assert Holds(subs[i], worker.value);
        assert i == k;
      }
      if HandleChecked(env, w, id, worker).Accept? { assert CheckRight(env, w, id, worker.value, k); }
    }
  }

  /** A check sets the time of that worker's replica, and changes nothing else; nobody is told. */
  lemma CheckEffect(env: Env, w: World, p: Proposal)
    requires WorldOk(env.h, w) && Well(p) && p.kind.CheckedRunning? && Handle(env, w, p.taskId.value, p.kind).Accept?
    ensures var r, id := Propose(env, w, p), p.taskId.value;
            && r.Done? && Open(w, id) && p.kind.worker.Some? && Open(r.world, id) && Elsewhere(w, r.world, id)
            && r.world.shared.notices == w.shared.notices
            && var t, t', subs, subs' := w.shared.tasks[id], r.world.shared.tasks[id], Subs(w, id), Subs(r.world, id);
               && t' == t.(completeness := t'.completeness, managers := t.managers + [p.payment.value])
               && |subs'| == |subs|
               && forall i | 0 <= i < |subs| ::
                    subs'[i] == if subs[i].Some? && subs[i].value.worker == p.kind.worker.value
                                then Some(subs[i].value.(lastCheck := env.now)) else subs[i]
  {
    hide WorldOk;
    hide Sort;
    hide FreeTold;
    hide BusyTold;
    hide FinishCompleted;
    hide FinishFailed;
    var id, manager := p.taskId.value, p.payment.value;
    TaskFacts(env.h, w, id);
    var check := Check(p.kind.worker.value);
    SortOfSorted([check] + [AddManager]);
    assert [check] + [AddManager] == [check, AddManager];
    ApplyTwo(env, w, id, manager, check, AddManager);
    var k := FindWorker(Subs(w, id), p.kind.worker.value);
    assert Holds(Subs(w, id)[k], p.kind.worker.value);
  }

  /** After a check, no other is accepted for the same worker before the interval has passed again. */
  lemma SecondCheckRefused(env: Env, env': Env, w: World, p: Proposal)
    requires WorldOk(env.h, w) && Well(p) && p.kind.CheckedRunning? && Handle(env, w, p.taskId.value, p.kind).Accept?
    requires env'.h == env.h
    ensures var r, j := Propose(env, w, p), w.shared.tasks[p.taskId.value].jobId;
            && r.Done? && j in w.ledger.jobs
            && (HandleChecked(env', r.world, p.taskId.value, p.kind.worker).Accept?
                <==> env'.now >= env.now && env'.now - env.now >= w.ledger.jobs[j].minCheckingInterval)
  {
    hide WorldOk;
    hide Propose;
    hide HandleChecked;
    var w', id, worker := Propose(env, w, p).world, p.taskId.value, p.kind.worker;
    CheckAcceptedIff(env, w, id, worker);
    CheckEffect(env, w, p);
    ProposeOutcome(env, w, p);
    CheckAcceptedIff(env', w', id, worker);
    var i: nat :| CheckRight(env, w, id, worker.value, i);
    assert Subs(w', id)[i].value.lastCheck == env.now;
    if CheckRight(env', w', id, worker.value, i) { }
    if env'.now >= env.now && env'.now - env.now >= w.ledger.jobs[w.shared.tasks[id].jobId].minCheckingInterval {
      assert CheckRight(env', w', id, worker.value, i);
    }
  }

  // ---------------------------------------------------------------- completions

  /** The result of a worker that holds a replica of an open task, reported about this task all through. */
  lemma CompletionAcceptedIff(w: World, id: Id, selected: Option<SelectedResult>)
    ensures HandleCompleted(w, id, selected).Accept?
            <==> && Open(w, id) && selected.Some? && selected.value.taskId == id && selected.value.statusTaskId == id
                 && selected.value.worker.Some? && Has(Subs(w, id), selected.value.worker.value)
                 && selected.value.result.Some?
    ensures !HandleCompleted(w, id, selected).Panic?
  {
    hide Has;
    hide FindWorker;
    if Open(w, id) && selected.Some? && selected.value.worker.Some? {
      AssignedIff(w.shared.tasks[id].completeness, selected.value.worker.value);
    }
  }

  lemma {:induction false} AllPaid(subs: Replicas)
    requires Free(subs) == 0
    ensures |Payments(subs)| == |subs|
    ensures forall i | 0 <= i < |subs| :: subs[i].Some? && Payments(subs)[i] == subs[i].value.payment
  {
    if subs != [] {
      FreeBounds(subs[..|subs| - 1]);
      AllPaid(subs[..|subs| - 1]);
    }
  }

  /**
   A completion keeps the result and the terms of every replica, in order, and stores the result with the
   managers on the contract; nothing else changes but the accounts, and nobody is told.
   */
  lemma CompletionEffect(env: Env, w: World, p: Proposal)
    requires WorldOk(env.h, w) && Well(p) && p.kind.Completion? && Handle(env, w, p.taskId.value, p.kind).Accept?
    requires Propose(env, w, p).Done?
    ensures var w', id := Propose(env, w, p).world, p.taskId.value;
            && Open(w, id) && id in w.ledger.tasks && id in w'.shared.tasks
            && p.kind.selected.Some? && p.kind.selected.value.result.Some?
            && w'.shared == w.shared.(tasks := w.shared.tasks[id := w'.shared.tasks[id]])
            && var t, t', result := w.shared.tasks[id], w'.shared.tasks[id], p.kind.selected.value.result.value;
               && t' == t.(completeness := t'.completeness, managers := t.managers + [p.payment.value])
               && t'.completeness.Completed? && t'.completeness.result == result
               && |t'.completeness.payments| == |Subs(w, id)|
               && (forall i | 0 <= i < |Subs(w, id)| ::
                     Subs(w, id)[i].Some? && t'.completeness.payments[i] == Subs(w, id)[i].value.payment)
               && OnlyTask(w.ledger, w'.ledger, id, w.ledger.tasks[id].(managers := t'.managers,
                             state := Escrow.Completed, result := result))
  {
    hide WorldOk;
    hide Sort;
    hide FreeTold;
    hide BusyTold;
    hide FinishCompleted;
    hide FindWorker;
    hide Payments;
    hide OnlyTask;
    var id, manager, result := p.taskId.value, p.payment.value, p.kind.selected.value.result.value;
    OpenLedger(env.h, w, id);
    ProposeOutcome(env, w, p);
    NoHalt(env, w, p);
    AllPaid(Subs(w, id));
    SortCompletion(result);
    ApplyTwo(env, w, id, manager, AddManager, Complete(result));
    BooksChange(env, w, id, manager, 0);
    CompleteIff(env, w.ledger, id, w.shared.tasks[id].managers + [manager], result, Payments(Subs(w, id)));
  }

  lemma NoHalt(env: Env, w: World, p: Proposal)
    requires WorldOk(env.h, w) && Well(p) && p.kind.Completion? && Handle(env, w, p.taskId.value, p.kind).Accept?
    requires Propose(env, w, p).Done? && Outcome(env, w, p)
    ensures Open(w, p.taskId.value) && Free(Subs(w, p.taskId.value)) == 0 && env.me == w.ledger.oracle
  {
    hide Propose;
    hide WorldOk;
  }

  // ---------------------------------------------------------------- new tasks

  lemma NewTaskAcceptedIff(h: Escrow.Hashes, w: World, id: Id, decodable: bool)
    requires WorldOk(h, w)
    ensures HandleNewTask(w, id, decodable).Accept?
            <==> id !in w.shared.tasks && id in w.ledger.tasks && (w.ledger.tasks[id].jobId in w.shared.jobs || decodable)
    ensures !HandleNewTask(w, id, decodable).Panic?
  {
    hide EscrowSafety.Inv;
    if id in w.ledger.tasks { OpenTaskJob(h, w.ledger, id); }
  }

  /** A new task has one free replica for each run its job asks for, and each is announced once. */
  lemma NewTaskEffect(env: Env, w: World, p: Proposal)
    requires WorldOk(env.h, w) && Well(p) && p.kind.NewTask? && Handle(env, w, p.taskId.value, p.kind).Accept?
    ensures var r, id := Propose(env, w, p), p.taskId.value;
            && r.Done? && id in w.ledger.tasks && w.ledger.tasks[id].jobId in w.ledger.jobs && Open(r.world, id)
            && var w', task := r.world, w.ledger.tasks[id];
               var job := w.ledger.jobs[task.jobId];
               && w'.ledger == w.ledger && w'.shared.tasks == w.shared.tasks[id := w'.shared.tasks[id]]
               && w'.shared.jobs == w.shared.jobs[task.jobId := JobInfo(job.redundancy, job.maxFailures)]
               && (var t := w'.shared.tasks[id];
                   && t.jobId == task.jobId && t.argId == task.argumentId && t.nbFailures == 0
                   && t.managers == [p.payment.value] && t.completeness == Incomplete(Subs(w', id)))
               && |Subs(w', id)| == job.redundancy && (forall i | 0 <= i < job.redundancy :: Subs(w', id)[i] == None)
               && w'.shared.notices == w.shared.notices + seq(job.redundancy, k => (id, Pending))
  {
    hide EscrowSafety.Inv;
    hide Sort;
    hide Apply;
    hide HandleNewTask;
    hide Core;
    var id, manager := p.taskId.value, p.payment.value;
    NewTaskCreates(env.h, w, id, p.kind.decodable);
    var c := HandleNewTask(w, id, p.kind.decodable).changes[0];
    SortOfSorted([c] + [AddManager]);
    assert [c] + [AddManager] == [c, AddManager];
    ApplyTwo(env, w, id, manager, c, AddManager);
    Created(env, w, id, manager, c);
    BooksChange(env, Apply(env, w, id, manager, c).world, id, manager, 0);
  }

  lemma NewTaskCreates(h: Escrow.Hashes, w: World, id: Id, decodable: bool)
    requires WorldOk(h, w) && HandleNewTask(w, id, decodable).Accept?
    ensures id in w.ledger.tasks && w.ledger.tasks[id].jobId in w.ledger.jobs
    ensures var task := w.ledger.tasks[id];
            var job := w.ledger.jobs[task.jobId];
            var info := JobInfo(job.redundancy, job.maxFailures);
            var known := task.jobId in w.shared.jobs;
            && HandleNewTask(w, id, decodable).changes
               == [Create(task.jobId, task.argumentId, if known then None else Some(info))]
            && (known ==> w.shared.jobs[task.jobId] == info)
  {
    hide EscrowSafety.Inv;
    OpenTaskJob(h, w.ledger, id);
    if w.ledger.tasks[id].jobId in w.shared.jobs { assert JobKnown(w, w.ledger.tasks[id].jobId); }
  }

  lemma Created(env: Env, w: World, id: Id, manager: Address, c: StateChange)
    requires c.Create? && (c.jobId in w.shared.jobs || c.job.Some?)
    ensures var r := Apply(env, w, id, manager, c);
            var info := if c.jobId in w.shared.jobs then w.shared.jobs[c.jobId] else c.job.value;
            && r.Done? && Open(r.world, id) && r.world.ledger == w.ledger
            && r.world.shared.tasks == w.shared.tasks[id := TaskData(c.jobId, c.argId, 0, [], FreshCompleteness(info.redundancy))]
            && r.world.shared.jobs == w.shared.jobs[c.jobId := info]
            && r.world.shared.notices == w.shared.notices + seq(info.redundancy, k => (id, Pending))
  {
  }

  // ---------------------------------------------------------------- the others

  /** A proposal that is not accepted changes nothing. */
  lemma RefusedEffect(env: Env, w: World, p: Proposal)
    requires WorldOk(env.h, w) && !(Well(p) && Handle(env, w, p.taskId.value, p.kind).Accept?)
    ensures Propose(env, w, p) == Done(w)
  {
    hide WorldOk;
    hide Sort;
    hide ApplyAll;
    hide HandleFailure;
    if Well(p) {
      match p.kind
      case NewTask(decodable) => NewTaskAcceptedIff(env.h, w, p.taskId.value, decodable);
      case Failure(newNb, kind) => FailureAcceptedIff(env.h, w, p.taskId.value, newNb, kind);
      case _ =>
    }
  }
}

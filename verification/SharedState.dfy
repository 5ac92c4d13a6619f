/** One task of the state shared between managers: its replicas, its failures, how it ended. */
module SharedState {
  import opened Base

  type PeerId = int

  datatype PaymentInfo = PaymentInfo(address: Address, workerPrice: uint64, networkPrice: uint64)

  datatype Assigned = Assigned(lastCheck: int, worker: PeerId, workersManager: PeerId, payment: PaymentInfo)

  /** `TaskDefiniteErrorKind` of the managers' protocol. */
  datatype DefiniteError = TimedOut | Download | Runtime | Aborted | IncorrectSpecification | IncorrectResult

  datatype Completeness =
    | Incomplete(substates: seq<Option<Assigned>>)
    | DefinetelyFailed(reason: DefiniteError)
    | Completed(result: Bytes, payments: seq<PaymentInfo>)

  datatype TaskData = TaskData(
    jobId: Id,
    argId: nat,
    nbFailures: uint64,
    managers: seq<Address>,
    completeness: Completeness)

  // ---------------------------------------------------------------- replicas

  predicate Holds(s: Option<Assigned>, worker: PeerId) {
    s.Some? && s.value.worker == worker
  }

  /** Index of the first replica assigned to `worker`, `|subs|` when there is none. */
  function FindWorker(subs: seq<Option<Assigned>>, worker: PeerId): (i: nat)
    ensures i <= |subs|
    ensures i < |subs| ==> Holds(subs[i], worker)
    ensures forall k | 0 <= k < i :: !Holds(subs[k], worker)
  {
    if subs == [] then 0
    else if Holds(subs[0], worker) then 0
    else
      assert forall k | 0 < k < |subs| :: subs[k] == subs[1..][k - 1];
      1 + FindWorker(subs[1..], worker)
  }

  /** Index of the first free replica, `|subs|` when there is none. */
  function FindFree(subs: seq<Option<Assigned>>): (i: nat)
    ensures i <= |subs|
    ensures i < |subs| ==> subs[i].None?
    ensures forall k | 0 <= k < i :: subs[k].Some?
  {
    if subs == [] then 0
    else if subs[0].None? then 0
    else
      assert forall k | 0 < k < |subs| :: subs[k] == subs[1..][k - 1];
      1 + FindFree(subs[1..])
  }

  function Free(subs: seq<Option<Assigned>>): nat {
    if subs == [] then 0 else Free(subs[..|subs| - 1]) + (if subs[|subs| - 1].None? then 1 else 0)
  }

  /** What `set_completed` keeps of the replicas: who is to be paid, in order. */
  function Payments(subs: seq<Option<Assigned>>): seq<PaymentInfo> {
    if subs == [] then []
    else
      var last := subs[|subs| - 1];
      Payments(subs[..|subs| - 1]) + (if last.Some? then [last.value.payment] else [])
  }

  /** No worker is assigned to two replicas. */
  ghost predicate Distinct(subs: seq<Option<Assigned>>) {
    forall i, j | 0 <= i < j < |subs| && subs[i].Some? && subs[j].Some? ::
      subs[i].value.worker != subs[j].value.worker
  }

  predicate AssignedTo(c: Completeness, worker: PeerId) {
    c.Incomplete? && FindWorker(c.substates, worker) < |c.substates|
  }

  function Substate(c: Completeness, worker: PeerId): Option<Assigned> {
    if AssignedTo(c, worker) then c.substates[FindWorker(c.substates, worker)] else None
  }

  function NbUnassigned(c: Completeness): Option<nat> {
    if c.Incomplete? then Some(Free(c.substates)) else None
  }

  function Unassign(c: Completeness, worker: PeerId): Completeness
    requires AssignedTo(c, worker)
  {
    Incomplete(c.substates[FindWorker(c.substates, worker) := None])
  }

  predicate CanAssign(c: Completeness, worker: PeerId) {
    c.Incomplete? && !AssignedTo(c, worker) && FindFree(c.substates) < |c.substates|
  }

  function Assign(c: Completeness, a: Assigned): Completeness
    requires CanAssign(c, a.worker)
  {
    Incomplete(c.substates[FindFree(c.substates) := Some(a)])
  }

  function Touch(c: Completeness, worker: PeerId, now: int): Completeness
    requires AssignedTo(c, worker)
  {
    var i := FindWorker(c.substates, worker);
    Incomplete(c.substates[i := Some(c.substates[i].value.(lastCheck := now))])
  }

  function FreshCompleteness(redundancy: uint64): Completeness {
    Incomplete(seq(redundancy, i => None))
  }

  // ---------------------------------------------------------------- how the replicas change

  lemma {:induction false} FreeUpdate(subs: seq<Option<Assigned>>, i: nat, s: Option<Assigned>)
    requires i < |subs|
    ensures Free(subs[i := s]) == Free(subs) - (if subs[i].None? then 1 else 0) + (if s.None? then 1 else 0)
  {
    var n := |subs| - 1;
    if i == n {
      assert subs[i := s][..n] == subs[..n];
    } else {
      FreeUpdate(subs[..n], i, s);
      assert subs[i := s][..n] == subs[..n][i := s];
    }
  }

  lemma {:induction false} FreeBounds(subs: seq<Option<Assigned>>)
    ensures Free(subs) <= |subs|
    ensures Free(subs) == 0 <==> FindFree(subs) == |subs|
  {
    if subs != [] {
      var n := |subs| - 1;
      FreeBounds(subs[..n]);
      assert forall k | 0 <= k < n :: subs[..n][k] == subs[k];
    }
  }

  /** The payment list has one entry for each assigned replica. */
  lemma {:induction false} PaymentsCount(subs: seq<Option<Assigned>>)
    ensures |Payments(subs)| == |subs| - Free(subs)
  {
    if subs != [] {
      PaymentsCount(subs[..|subs| - 1]);
    }
  }

  lemma {:induction false} FreshFree(n: nat)
    ensures var subs: seq<Option<Assigned>> := seq(n, i => None); Free(subs) == n && Distinct(subs)
  {
    if n > 0 {
      FreshFree(n - 1);
      var subs: seq<Option<Assigned>> := seq(n, i => None);
      assert subs[..n - 1] == seq(n - 1, i => None);
    }
  }

  /** Taking a free replica for a worker who holds none keeps the workers distinct. */
  lemma AssignKeeps(c: Completeness, a: Assigned)
    requires CanAssign(c, a.worker) && Distinct(c.substates)
    ensures var subs := Assign(c, a).substates;
            && |subs| == |c.substates| && Distinct(subs) && Free(subs) == Free(c.substates) - 1
            && forall w :: AssignedTo(Assign(c, a), w) <==> AssignedTo(c, w) || w == a.worker
  {
    var i := FindFree(c.substates);
    FreeUpdate(c.substates, i, Some(a));
    var subs := Assign(c, a).substates;
    forall w ensures AssignedTo(Assign(c, a), w) <==> AssignedTo(c, w) || w == a.worker {
      var k, k' := FindWorker(c.substates, w), FindWorker(subs, w);
      if k < |subs| { assert Holds(subs[k], w); }
      if k' < |subs| && k' != i { assert Holds(c.substates[k'], w); }
      assert Holds(subs[i], a.worker);
    }
  }

  /** Freeing the replica of a worker frees every replica of that worker, and no other. */
  lemma UnassignKeeps(c: Completeness, worker: PeerId)
    requires AssignedTo(c, worker) && Distinct(c.substates)
    ensures var subs := Unassign(c, worker).substates;
            && |subs| == |c.substates| && Distinct(subs) && Free(subs) == Free(c.substates) + 1
            && forall w :: AssignedTo(Unassign(c, worker), w) <==> AssignedTo(c, w) && w != worker
  {
    var i := FindWorker(c.substates, worker);
    FreeUpdate(c.substates, i, None);
    var subs := Unassign(c, worker).substates;
    forall w ensures AssignedTo(Unassign(c, worker), w) <==> AssignedTo(c, w) && w != worker {
      var k, k' := FindWorker(c.substates, w), FindWorker(subs, w);
      if k < |subs| && w != worker { assert Holds(subs[k], w); }
      if k' < |subs| { assert Holds(c.substates[k'], w); }
    }
  }

  lemma TouchKeeps(c: Completeness, worker: PeerId, now: int)
    requires AssignedTo(c, worker) && Distinct(c.substates)
    ensures var subs := Touch(c, worker, now).substates;
            |subs| == |c.substates| && Distinct(subs) && Free(subs) == Free(c.substates)
  {
    var i := FindWorker(c.substates, worker);
    FreeUpdate(c.substates, i, Some(c.substates[i].value.(lastCheck := now)));
  }

  // ---------------------------------------------------------------- the record in memory

  class Task {
    const jobId: Id
    const argId: nat
    var nbFailures: uint64
    var managers: seq<Address>
    var completeness: Completeness

    function Data(): TaskData
      reads this
    {
      TaskData(jobId, argId, nbFailures, managers, completeness)
    }

    constructor (jobId: Id, argId: nat, redundancy: uint64)
      ensures Data() == TaskData(jobId, argId, 0, [], FreshCompleteness(redundancy))
    {
      this.jobId, this.argId := jobId, argId;
      nbFailures, managers := 0, [];
      completeness := FreshCompleteness(redundancy);
    }

    /** The scan shared by `get_substate`, `get_substate_mut` and `unassign`. */
    method Find(worker: PeerId) returns (i: nat)
      requires completeness.Incomplete?
      ensures i == FindWorker(completeness.substates, worker)
    {
      var subs := completeness.substates;
      i := 0;
      while i < |subs| && !Holds(subs[i], worker)
        invariant i <= |subs|
        invariant FindWorker(subs, worker) == i + FindWorker(subs[i..], worker)
      {
        assert subs[i..][1..] == subs[i + 1..];
        i := i + 1;
      }
    }

    method GetNbUnassigned() returns (n: Option<nat>)
      ensures n == NbUnassigned(completeness)
    {
      if !completeness.Incomplete? { return None; }
      var subs := completeness.substates;
      var count, i := 0, 0;
      while i < |subs|
        invariant 0 <= i <= |subs|
        invariant count == Free(subs[..i])
      {
        assert subs[..i + 1][..i] == subs[..i];
        if subs[i].None? { count := count + 1; }
        i := i + 1;
      }
      assert subs[..i] == subs;
      n := Some(count);
    }

    method UnassignWorker(worker: PeerId) returns (r: Option<Assigned>)
      modifies this`completeness
      ensures r == Substate(old(completeness), worker)
      ensures completeness == if r.Some? then Unassign(old(completeness), worker) else old(completeness)
    {
      if !completeness.Incomplete? { return None; }
      var i := Find(worker);
      if i == |completeness.substates| { return None; }
      r := completeness.substates[i];
      completeness := Incomplete(completeness.substates[i := None]);
    }

    method AssignWorker(a: Assigned) returns (ok: bool)
      modifies this`completeness
      ensures ok == CanAssign(old(completeness), a.worker)
      ensures completeness == if ok then Assign(old(completeness), a) else old(completeness)
    {
      if !completeness.Incomplete? { return false; }
      var held := Find(a.worker);
      var subs := completeness.substates;
      if held < |subs| { return false; }
      var i := 0;
      while i < |subs| && subs[i].Some?
        invariant 0 <= i <= |subs|
        invariant FindFree(subs) == i + FindFree(subs[i..])
      {
        assert subs[i..][1..] == subs[i + 1..];
        i := i + 1;
      }
      if i == |subs| { return false; }
      completeness := Incomplete(subs[i := Some(a)]);
      ok := true;
    }

    method UpdateLastCheck(worker: PeerId, now: int) returns (ok: bool)
      modifies this`completeness
      ensures ok == AssignedTo(old(completeness), worker)
      ensures completeness == if ok then Touch(old(completeness), worker, now) else old(completeness)
    {
      if !completeness.Incomplete? { return false; }
      var i := Find(worker);
      var subs := completeness.substates;
      if i == |subs| { return false; }
      completeness := Incomplete(subs[i := Some(subs[i].value.(lastCheck := now))]);
      ok := true;
    }

    method SetCompleted(result: Bytes)
      requires completeness.Incomplete?
      modifies this`completeness
      ensures completeness == Completed(result, Payments(old(completeness).substates))
    {
      var subs := completeness.substates;
      var payments, i := [], 0;
      while i < |subs|
        invariant 0 <= i <= |subs|
        invariant payments == Payments(subs[..i])
      {
        assert subs[..i + 1][..i] == subs[..i];
        if subs[i].Some? { payments := payments + [subs[i].value.payment]; }
        i := i + 1;
      }
      assert subs[..i] == subs;
      completeness := Completed(result, payments);
    }

    method SetDefinitelyFailed(reason: DefiniteError)
      requires completeness.Incomplete?
      modifies this`completeness
      ensures completeness == DefinetelyFailed(reason)
    {
      completeness := DefinetelyFailed(reason);
    }

    method AddManager(manager: Address)
      modifies this`managers
      ensures managers == old(managers) + [manager]
    {
      managers := managers + [manager];
    }

    method SetNbFailures(nb: uint64)
      modifies this`nbFailures
      ensures nbFailures == nb
    {
      nbFailures := nb;
    }
  }
}

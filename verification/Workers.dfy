/** The slots of the workers a manager runs: free, promised in a proposal, or working on a task. */
module Workers {
  import opened Base
  import SharedState

  type PeerId = SharedState.PeerId

  datatype Slot = Available | Pending | Assigned(taskId: Id)

  datatype WorkerData = WorkerData(peer: PeerId, slots: seq<Slot>)

  // ---------------------------------------------------------------- slots as values

  function Count(slots: seq<Slot>, s: Slot): nat {
    if slots == [] then 0 else Count(slots[..|slots| - 1], s) + (if slots[|slots| - 1] == s then 1 else 0)
  }

  /** Slots that do not work on a task. */
  function Unassigned(slots: seq<Slot>): nat {
    if slots == [] then 0 else Unassigned(slots[..|slots| - 1]) + (if slots[|slots| - 1].Assigned? then 0 else 1)
  }

  /** Overwrites the first slot equal to `from`; `None` when there is none. */
  function Turn(slots: seq<Slot>, from: Slot, to: Slot): Option<seq<Slot>> {
    var i := IndexOf(slots, from);
    if i < |slots| then Some(slots[i := to]) else None
  }

  function Reserve(slots: seq<Slot>): Option<seq<Slot>> {
    Turn(slots, Available, Pending)
  }

  /** A promised slot is taken first. */
  function Assign(slots: seq<Slot>, id: Id): Option<seq<Slot>> {
    var promised := Turn(slots, Pending, Assigned(id));
    if promised.Some? then promised else Turn(slots, Available, Assigned(id))
  }

  function Unassign(slots: seq<Slot>, id: Id): Option<seq<Slot>> {
    Turn(slots, Assigned(id), Available)
  }

  function Unreserve(slots: seq<Slot>): seq<Slot> {
    seq(|slots|, i requires 0 <= i < |slots| => if slots[i].Pending? then Available else slots[i])
  }

  /** The same slots work on the same tasks. */
  ghost predicate SameWork(a: seq<Slot>, b: seq<Slot>) {
    |a| == |b| && forall i | 0 <= i < |a| && (a[i].Assigned? || b[i].Assigned?) :: a[i] == b[i]
  }

  lemma {:induction false} CountUpdate(slots: seq<Slot>, i: nat, to: Slot, s: Slot)
    requires i < |slots|
    ensures Count(slots[i := to], s) == Count(slots, s) - (if slots[i] == s then 1 else 0) + (if to == s then 1 else 0)
  {
    var n := |slots| - 1;
    if i == n {
      assert slots[i := to][..n] == slots[..n];
    } else {
      CountUpdate(slots[..n], i, to, s);
      assert slots[i := to][..n] == slots[..n][i := to];
    }
  }

  lemma {:induction false} CountFound(slots: seq<Slot>, s: Slot)
    ensures Count(slots, s) > 0 <==> IndexOf(slots, s) < |slots|
  {
    if slots != [] {
      var n := |slots| - 1;
      CountFound(slots[..n], s);
      assert forall k | 0 <= k < n :: slots[..n][k] == slots[k];
    }
  }

  /** Every slot that does not work is available or promised. */
  lemma {:induction false} UnassignedSplit(slots: seq<Slot>)
    ensures Unassigned(slots) == Count(slots, Available) + Count(slots, Pending)
  {
    if slots != [] {
      UnassignedSplit(slots[..|slots| - 1]);
    }
  }

  lemma {:induction false} SameWorkCount(a: seq<Slot>, b: seq<Slot>)
    requires SameWork(a, b)
    ensures Unassigned(a) == Unassigned(b)
  {
    if a != [] {
      var n := |a| - 1;
      assert SameWork(a[..n], b[..n]) by {
        assert forall i | 0 <= i < n :: a[..n][i] == a[i] && b[..n][i] == b[i];
      }
      SameWorkCount(a[..n], b[..n]);
    }
  }

  lemma {:induction false} UnreserveClears(slots: seq<Slot>)
    ensures SameWork(slots, Unreserve(slots)) && Count(Unreserve(slots), Pending) == 0
  {
    if slots != [] {
      var n := |slots| - 1;
      UnreserveClears(slots[..n]);
      assert Unreserve(slots)[..n] == Unreserve(slots[..n]);
    }
  }

  /** Reserving promises one more slot when there is one, and never touches a working one. */
  lemma ReserveCounts(slots: seq<Slot>)
    ensures Reserve(slots).Some? <==> Count(slots, Pending) < Unassigned(slots)
    ensures Reserve(slots).Some? ==>
              SameWork(slots, Reserve(slots).value) && Count(Reserve(slots).value, Pending) == Count(slots, Pending) + 1
  {
    UnassignedSplit(slots);
    CountFound(slots, Available);
    if Reserve(slots).Some? {
      CountUpdate(slots, IndexOf(slots, Available), Pending, Pending);
    }
  }

  /**
   A task gets a slot exactly when one does not work. It gets one slot more, no other task loses or
   gains any, and an available slot is taken only when none was promised.
   */
  lemma AssignCounts(slots: seq<Slot>, id: Id)
    ensures Assign(slots, id).Some? <==> Unassigned(slots) > 0
    ensures Assign(slots, id).Some? ==>
              var after := Assign(slots, id).value;
              && |after| == |slots|
              && (forall t :: Count(after, Assigned(t)) == Count(slots, Assigned(t)) + (if t == id then 1 else 0))
              && Unassigned(after) == Unassigned(slots) - 1
              && (Count(slots, Pending) > 0 ==> Count(after, Available) == Count(slots, Available))
  {
    UnassignedSplit(slots);
    CountFound(slots, Available);
    CountFound(slots, Pending);
    if Assign(slots, id).Some? {
      var after := Assign(slots, id).value;
      var i := if Count(slots, Pending) > 0 then IndexOf(slots, Pending) else IndexOf(slots, Available);
      UnassignedSplit(after);
      forall t ensures Count(after, Assigned(t)) == Count(slots, Assigned(t)) + (if t == id then 1 else 0) {
        CountUpdate(slots, i, Assigned(id), Assigned(t));
      }
      CountUpdate(slots, i, Assigned(id), Available);
      CountUpdate(slots, i, Assigned(id), Pending);
    }
  }

  /** A task loses a slot exactly when it had one; the slot becomes available, whatever it was before the task. */
  lemma UnassignCounts(slots: seq<Slot>, id: Id)
    ensures Unassign(slots, id).Some? <==> Count(slots, Assigned(id)) > 0
    ensures Unassign(slots, id).Some? ==>
              var after := Unassign(slots, id).value;
              && |after| == |slots|
              && (forall t :: Count(after, Assigned(t)) == Count(slots, Assigned(t)) - (if t == id then 1 else 0))
              && Count(after, Available) == Count(slots, Available) + 1
              && Count(after, Pending) == Count(slots, Pending)
  {
    CountFound(slots, Assigned(id));
    if Unassign(slots, id).Some? {
      var i := IndexOf(slots, Assigned(id));
      var after := Unassign(slots, id).value;
      forall t ensures Count(after, Assigned(t)) == Count(slots, Assigned(t)) - (if t == id then 1 else 0) {
        CountUpdate(slots, i, Available, Assigned(t));
      }
      CountUpdate(slots, i, Available, Available);
      CountUpdate(slots, i, Available, Pending);
    }
  }

  // ---------------------------------------------------------------- the table as a value

  ghost predicate DistinctPeers(ws: seq<WorkerData>) {
    forall i, j | 0 <= i < j < |ws| :: ws[i].peer != ws[j].peer
  }

  function FindPeer(ws: seq<WorkerData>, peer: PeerId): (i: nat)
    ensures i <= |ws|
    ensures i < |ws| ==> ws[i].peer == peer
    ensures forall k | 0 <= k < i :: ws[k].peer != peer
  {
    if ws == [] then 0
    else if ws[0].peer == peer then 0
    else
      assert forall k | 0 < k < |ws| :: ws[k] == ws[1..][k - 1];
      1 + FindPeer(ws[1..], peer)
  }

  function SlotsOf(ws: seq<WorkerData>, peer: PeerId): Option<seq<Slot>> {
    var i := FindPeer(ws, peer);
    if i < |ws| then Some(ws[i].slots) else None
  }

  /** Gives a known worker new slots, if there are any. */
  function WithSlots(ws: seq<WorkerData>, peer: PeerId, slots: Option<seq<Slot>>): seq<WorkerData> {
    var i := FindPeer(ws, peer);
    if i < |ws| && slots.Some? then ws[i := WorkerData(peer, slots.value)] else ws
  }

  function AfterReserve(ws: seq<WorkerData>, peer: PeerId): Option<seq<Slot>> {
    var slots := SlotsOf(ws, peer);
    if slots.Some? then Reserve(slots.value) else None
  }

  function AfterAssign(ws: seq<WorkerData>, peer: PeerId, id: Id): Option<seq<Slot>> {
    var slots := SlotsOf(ws, peer);
    if slots.Some? then Assign(slots.value, id) else None
  }

  function AfterUnassign(ws: seq<WorkerData>, peer: PeerId, id: Id): Option<seq<Slot>> {
    var slots := SlotsOf(ws, peer);
    if slots.Some? then Unassign(slots.value, id) else None
  }

  function UnreserveAll(ws: seq<WorkerData>): seq<WorkerData> {
    seq(|ws|, i requires 0 <= i < |ws| => WorkerData(ws[i].peer, Unreserve(ws[i].slots)))
  }

  function Pushed(ws: seq<WorkerData>, peer: PeerId, cpus: nat): seq<WorkerData> {
    if FindPeer(ws, peer) < |ws| then ws else ws + [WorkerData(peer, seq(cpus, i => Available))]
  }

  function Removed(ws: seq<WorkerData>, peer: PeerId): seq<WorkerData> {
    var i := FindPeer(ws, peer);
    if i < |ws| then ws[..i] + ws[i + 1..] else ws
  }

  /** The peers with a slot that does not work, those of one kind in table order. */
  function Having(ws: seq<WorkerData>, available: bool): seq<PeerId> {
    if ws == [] then []
    else
      var last := ws[|ws| - 1];
      Having(ws[..|ws| - 1], available)
      + (if Unassigned(last.slots) > 0 && (Count(last.slots, Available) > 0) == available then [last.peer] else [])
  }

  /** `get_unassigned_workers_sorted`: workers with an available slot before those with promised ones only. */
  function SortedPeers(ws: seq<WorkerData>): seq<PeerId> {
    Having(ws, true) + Having(ws, false)
  }

  /** A worker pushed has one available slot for each processor; others, and a worker known already, keep theirs. */
  lemma PushedSlots(ws: seq<WorkerData>, peer: PeerId, cpus: nat)
    ensures var after := Pushed(ws, peer, cpus);
            if exists i :: 0 <= i < |ws| && ws[i].peer == peer then after == ws
            else && |after| == |ws| + 1 && after[..|ws|] == ws && after[|ws|].peer == peer
                 && |after[|ws|].slots| == cpus && forall k | 0 <= k < cpus :: after[|ws|].slots[k] == Available
  {
    var i := FindPeer(ws, peer);
    if i < |ws| { assert ws[i].peer == peer; }
  }

  /** Removing after pushing an unknown worker gives back the table; both keep the peers distinct. */
  lemma PushRemove(ws: seq<WorkerData>, peer: PeerId, cpus: nat)
    requires DistinctPeers(ws)
    ensures DistinctPeers(Pushed(ws, peer, cpus)) && DistinctPeers(Removed(ws, peer))
    ensures FindPeer(Pushed(ws, peer, cpus), peer) < |Pushed(ws, peer, cpus)|
    ensures FindPeer(Removed(ws, peer), peer) == |Removed(ws, peer)|
    ensures FindPeer(ws, peer) == |ws| ==> Removed(Pushed(ws, peer, cpus), peer) == ws
  {
    var i, after := FindPeer(ws, peer), Pushed(ws, peer, cpus);
    if i == |ws| {
      assert forall k | 0 <= k < |ws| :: after[k] == ws[k] && ws[k].peer != peer;
      assert after[|ws|] == WorkerData(peer, seq(cpus, i => Available));
      var k := FindPeer(after, peer);
      assert k == |ws| && after[..k] + after[k + 1..] == ws;
    } else {
      RemovedLacks(ws, peer);
    }
  }

  lemma RemovedLacks(ws: seq<WorkerData>, peer: PeerId)
    requires DistinctPeers(ws) && FindPeer(ws, peer) < |ws|
    ensures DistinctPeers(Removed(ws, peer)) && FindPeer(Removed(ws, peer), peer) == |Removed(ws, peer)|
  {
    var i, after := FindPeer(ws, peer), Removed(ws, peer);
    assert forall k | 0 <= k < |after| :: after[k] == if k < i then ws[k] else ws[k + 1];
  }

  // ---------------------------------------------------------------- the table in memory

  class Worker {
    const peerId: PeerId
    var assignments: seq<Slot>

    function Data(): WorkerData
      reads this
    {
      WorkerData(peerId, assignments)
    }

    constructor (peerId: PeerId, cpus: nat)
      ensures Data() == WorkerData(peerId, seq(cpus, i => Available))
    {
      this.peerId := peerId;
      assignments := seq(cpus, i => Available);
    }

    method Overwrite(from: Slot, to: Slot) returns (found: bool)
      modifies this`assignments
      ensures found == Turn(old(assignments), from, to).Some?
      ensures assignments == if found then Turn(old(assignments), from, to).value else old(assignments)
    {
      var i := 0;
      while i < |assignments| && assignments[i] != from
        invariant 0 <= i <= |assignments|
        invariant assignments == old(assignments)
        invariant IndexOf(assignments, from) == i + IndexOf(assignments[i..], from)
      {
        assert assignments[i..][1..] == assignments[i + 1..];
        i := i + 1;
      }
      found := i < |assignments|;
      if found { assignments := assignments[i := to]; }
    }

    method ReserveSlot() returns (ok: bool)
      modifies this`assignments
      ensures ok == Reserve(old(assignments)).Some?
      ensures assignments == if ok then Reserve(old(assignments)).value else old(assignments)
    {
      ok := Overwrite(Available, Pending);
    }

    method UnreserveAllSlots()
      modifies this`assignments
      ensures assignments == Unreserve(old(assignments))
    {
      var i := 0;
      while i < |assignments|
        invariant 0 <= i <= |assignments| == |old(assignments)|
        invariant forall k | 0 <= k < |assignments| ::
          assignments[k] == if k < i && old(assignments)[k].Pending? then Available else old(assignments)[k]
      {
        if assignments[i].Pending? { assignments := assignments[i := Available]; }
        i := i + 1;
      }
      assert assignments == Unreserve(old(assignments));
    }

    method AssignSlot(id: Id) returns (ok: bool)
      modifies this`assignments
      ensures ok == Assign(old(assignments), id).Some?
      ensures assignments == if ok then Assign(old(assignments), id).value else old(assignments)
    {
      ok := Overwrite(Pending, Assigned(id));
      if !ok { ok := Overwrite(Available, Assigned(id)); }
    }

    method UnassignSlot(id: Id) returns (ok: bool)
      modifies this`assignments
      ensures ok == Unassign(old(assignments), id).Some?
      ensures assignments == if ok then Unassign(old(assignments), id).value else old(assignments)
    {
      ok := Overwrite(Assigned(id), Available);
    }
  }

  class Table {
    var workers: seq<Worker>

    /** Peers are distinct, hence so are the objects. */
    ghost predicate Valid()
      reads this, workers
    {
      forall i, j | 0 <= i < j < |workers| :: workers[i].peerId != workers[j].peerId
    }

    function Data(): (ws: seq<WorkerData>)
      reads this, workers
      ensures |ws| == |workers|
    {
      seq(|workers|, i requires 0 <= i < |workers| reads this, workers => workers[i].Data())
    }

    constructor ()
      ensures Valid() && Data() == []
    {
      workers := [];
    }

    method Find(peer: PeerId) returns (i: nat)
      ensures i == FindPeer(Data(), peer)
    {
      i := 0;
      while i < |workers| && workers[i].peerId != peer
        invariant 0 <= i <= |workers|
        invariant FindPeer(Data(), peer) == i + FindPeer(Data()[i..], peer)
      {
        assert Data()[i..][1..] == Data()[i + 1..];
        i := i + 1;
      }
    }

    method Push(peer: PeerId, cpus: nat)
      requires Valid()
      modifies this
      ensures Valid() && forall w | w in workers :: w in old(workers) || fresh(w)
      ensures Data() == Pushed(old(Data()), peer, cpus)
    {
      var i := Find(peer);
      if i == |workers| {
        var w := new Worker(peer, cpus);
        workers := workers + [w];
        assert forall k | 0 <= k < |old(workers)| ::
            workers[k] == old(workers)[k] && workers[k].Data() == old(workers[k].Data()) && old(Data())[k].peer != peer;
        assert Data() == old(Data()) + [w.Data()];
      }
    }

    /** Taking one worker out of the table takes out one row. */
    twostate lemma OthersKept(i: nat)
      requires old(Valid()) && i < |old(workers)| && workers == old(workers)[..i] + old(workers)[i + 1..]
      requires forall w | w in old(workers) :: unchanged(w)
      ensures Valid() && Data() == old(Data())[..i] + old(Data())[i + 1..]
    {
      forall k | 0 <= k < |workers| ensures workers[k] == old(workers)[if k < i then k else k + 1] {
      }
      forall k | 0 <= k < |workers| ensures Data()[k] == (old(Data())[..i] + old(Data())[i + 1..])[k] {
        var w := workers[k];
        assert w in old(workers);
        assert w.Data() == old(w.Data());
      }
    }

    method Remove(peer: PeerId) returns (slots: Option<seq<Slot>>)
      requires Valid()
      modifies this
      ensures Valid() && forall w | w in workers :: w in old(workers)
      ensures slots == SlotsOf(old(Data()), peer) && Data() == Removed(old(Data()), peer)
    {
      var i := Find(peer);
      if i == |workers| { return None; }
      slots := Some(workers[i].assignments);
      workers := workers[..i] + workers[i + 1..];
      OthersKept(i);
    }

    /** A call on the worker at `i` leaves the other rows as they were. */
    twostate lemma OneWorker(i: nat)
      requires Valid() && workers == old(workers) && i < |workers|
      requires forall k | 0 <= k < |workers| && k != i :: unchanged(workers[k])
      ensures Data() == old(Data())[i := workers[i].Data()]
    {
      forall k | 0 <= k < |workers| ensures Data()[k] == old(Data())[i := workers[i].Data()][k] {
        if k != i { assert workers[k].Data() == old(workers[k].Data()); }
      }
    }

    method ReserveSlot(peer: PeerId) returns (ok: bool)
      requires Valid()
      modifies workers
      ensures Valid() && ok == AfterReserve(old(Data()), peer).Some?
      ensures Data() == WithSlots(old(Data()), peer, AfterReserve(old(Data()), peer))
    {
      var i := Find(peer);
      if i == |workers| { return false; }
      ok := workers[i].ReserveSlot();
      OneWorker(i);
    }

    method AssignSlot(peer: PeerId, id: Id) returns (ok: bool)
      requires Valid()
      modifies workers
      ensures Valid() && ok == AfterAssign(old(Data()), peer, id).Some?
      ensures Data() == WithSlots(old(Data()), peer, AfterAssign(old(Data()), peer, id))
    {
      hide Assign;
      var i := Find(peer);
      if i == |workers| { return false; }
      ok := workers[i].AssignSlot(id);
      OneWorker(i);
    }

    method UnassignSlot(peer: PeerId, id: Id) returns (ok: bool)
      requires Valid()
      modifies workers
      ensures Valid() && ok == AfterUnassign(old(Data()), peer, id).Some?
      ensures Data() == WithSlots(old(Data()), peer, AfterUnassign(old(Data()), peer, id))
    {
      var i := Find(peer);
      if i == |workers| { return false; }
      ok := workers[i].UnassignSlot(id);
      OneWorker(i);
    }

    method UnreserveAllSlots()
      requires Valid()
      modifies workers
      ensures Valid() && Data() == UnreserveAll(old(Data()))
    {
      hide Unreserve;
      var i := 0;
      while i < |workers|
        invariant 0 <= i <= |workers| && workers == old(workers) && Valid()
        invariant forall k | 0 <= k < |workers| ::
          workers[k].assignments == if k < i then Unreserve(old(workers[k].assignments)) else old(workers[k].assignments)
      {
        assert forall k | 0 <= k < |workers| && k != i :: workers[k] != workers[i];
        workers[i].UnreserveAllSlots();
        i := i + 1;
      }
    }

    method GetUnassignedWorkersSorted() returns (peers: seq<PeerId>)
      ensures peers == SortedPeers(Data())
    {
      var free, promised, i := [], [], 0;
      while i < |workers|
        invariant 0 <= i <= |workers|
        invariant free == Having(Data()[..i], true) && promised == Having(Data()[..i], false)
      {
        assert Data()[..i + 1][..i] == Data()[..i];
        var slots := workers[i].assignments;
        UnassignedSplit(slots);
        if Count(slots, Available) > 0 {
          free := free + [workers[i].peerId];
        } else if Count(slots, Pending) > 0 {
          promised := promised + [workers[i].peerId];
        }
        i := i + 1;
      }
      assert Data()[..i] == Data();
      peers := free + promised;
    }
  }
}

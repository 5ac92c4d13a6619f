/**
 How the slots of a manager follow the shared state: what it is told about each worker alternates,
 and a slot works on a task only while the last word was that the worker has a replica of it.
 */
module SlotMirror {
  import opened Base
  import opened SharedState
  import opened Oracle
  import opened OracleChanges
  import opened OracleSafety
  import OracleRuns
  import Escrow
  import EscrowSafety
  import Workers
  import Scheduler

  // ---------------------------------------------------------------- what is told about one worker

  ghost function Weight(n: (Id, Notice), id: Id, p: PeerId): int {
    if n.0 == id && n.1.AssignedTo? && n.1.worker == p then 1
    else if n.0 == id && n.1.UnassignedFrom? && n.1.worker == p then -1
    else 0
  }

  /** Assignments less unassignments of worker `p` to task `id`. */
  ghost function ToldTo(notices: seq<(Id, Notice)>, id: Id, p: PeerId): int {
    if notices == [] then 0
    else ToldTo(notices[..|notices| - 1], id, p) + Weight(notices[|notices| - 1], id, p)
  }

  /** Assignments and unassignments of the worker alternate, an assignment first. */
  ghost predicate Alternating(notices: seq<(Id, Notice)>, id: Id, p: PeerId) {
    forall n | 0 <= n <= |notices| :: 0 <= ToldTo(notices[..n], id, p) <= 1
  }

  lemma ToldOne(notices: seq<(Id, Notice)>, n: (Id, Notice), id: Id, p: PeerId)
    requires Alternating(notices, id, p)
    ensures ToldTo(notices + [n], id, p) == ToldTo(notices, id, p) + Weight(n, id, p)
    ensures 0 <= ToldTo(notices, id, p) <= 1
    ensures 0 <= ToldTo(notices + [n], id, p) <= 1 ==> Alternating(notices + [n], id, p)
  {
    var more := notices + [n];
    assert more[..|notices|] == notices && notices[..|notices|] == notices && more[..|more|] == more;
    forall k | 0 <= k <= |notices| ensures more[..k] == notices[..k] {
    }
  }

  lemma {:induction false} ToldOthers(notices: seq<(Id, Notice)>, more: seq<(Id, Notice)>, id: Id, p: PeerId)
    requires Alternating(notices, id, p) && forall i | 0 <= i < |more| :: Weight(more[i], id, p) == 0
    ensures ToldTo(notices + more, id, p) == ToldTo(notices, id, p) && Alternating(notices + more, id, p)
  {
    if more == [] {
      assert notices + more == notices;
    } else {
      var n := |more| - 1;
      ToldOthers(notices, more[..n], id, p);
      ToldOne(notices + more[..n], more[n], id, p);
      assert notices + more == notices + more[..n] + [more[n]];
      ToldOne(notices, more[n], id, p);
    }
  }

  // ---------------------------------------------------------------- reachable worlds

  /** The last word about the worker is the truth as long as the task is open. */
  ghost predicate Balanced(w: World, id: Id, p: PeerId) {
    && Alternating(w.shared.notices, id, p)
    && (id !in w.shared.tasks ==> ToldTo(w.shared.notices, id, p) == 0)
    && (Open(w, id) ==> ToldTo(w.shared.notices, id, p) == (if Assigns(w, id, p) then 1 else 0))
  }

  ghost predicate Apart(w: World, id: Id) {
    Open(w, id) ==> Distinct(Subs(w, id))
  }

  /** Notices about other tasks or workers, and pending replicas, weigh nothing. */
  lemma OthersBalanced(w: World, w': World, id: Id, p: PeerId)
    requires Balanced(w, id, p) && |w'.shared.notices| >= |w.shared.notices|
    requires w'.shared.notices[..|w.shared.notices|] == w.shared.notices
    requires forall i | |w.shared.notices| <= i < |w'.shared.notices| :: Weight(w'.shared.notices[i], id, p) == 0
    requires (id in w'.shared.tasks <==> id in w.shared.tasks) || (id !in w.shared.tasks && Open(w', id) && !Assigns(w', id, p))
    requires Open(w, id) && Open(w', id) ==> (Assigns(w', id, p) <==> Assigns(w, id, p))
    requires id in w.shared.tasks && Open(w', id) ==> Open(w, id)
    ensures Balanced(w', id, p)
  {
    var more := w'.shared.notices[|w.shared.notices|..];
    assert w'.shared.notices == w.shared.notices + more;
    ToldOthers(w.shared.notices, more, id, p);
  }

  lemma PlainBalanced(env: Env, w: World, id: Id, manager: Address, c: StateChange, k: Id, p: PeerId)
    requires Balanced(w, k, p) && Open(w, id) && Distinct(Subs(w, id)) && Plain(c)
    requires !(k == id && (c.UnassignWorker? || c.AssignWorker?) && c.worker == p)
    requires Apply(env, w, id, manager, c).Done?
    ensures Balanced(Apply(env, w, id, manager, c).world, k, p)
  {
    hide ToldTo;
    hide Alternating;
    var w' := Apply(env, w, id, manager, c).world;
    ApplySteady(env, w, id, manager, c);
    PlainAssigns(env, w, id, manager, c, p);
    PlainWeights(env, w, id, manager, c, k, p);
    OthersBalanced(w, w', k, p);
  }

  lemma PlainAssigns(env: Env, w: World, id: Id, manager: Address, c: StateChange, p: PeerId)
    requires Open(w, id) && Distinct(Subs(w, id)) && Plain(c) && Apply(env, w, id, manager, c).Done?
    ensures var w' := Apply(env, w, id, manager, c).world;
            && Open(w', id)
            && (Assigns(w', id, p) <==>
                  if c.UnassignWorker? then Assigns(w, id, p) && p != c.worker
                  else if c.AssignWorker? then Assigns(w, id, p) || p == c.worker
                  else Assigns(w, id, p))
  {
    var t := w.shared.tasks[id].completeness;
    match c
    case UnassignWorker(worker) => UnassignKeeps(t, worker);
    case AssignWorker(worker, m, pay) => AssignKeeps(t, Assigned(env.now, worker, m, pay));
    case Check(worker) => TouchAssigns(t, worker, env.now, p);
    case _ =>
  }

  lemma TouchAssigns(t: Completeness, worker: PeerId, now: int, p: PeerId)
    requires SharedState.AssignedTo(t, worker)
    ensures SharedState.AssignedTo(Touch(t, worker, now), p) <==> SharedState.AssignedTo(t, p)
  {
    var subs, subs' := t.substates, Touch(t, worker, now).substates;
    var k, k' := FindWorker(subs, p), FindWorker(subs', p);
    if k < |subs| { assert Holds(subs'[k], p); }
    if k' < |subs| { assert Holds(subs[k'], p); }
  }

  lemma PlainWeights(env: Env, w: World, id: Id, manager: Address, c: StateChange, k: Id, p: PeerId)
    requires Open(w, id) && Plain(c) && Apply(env, w, id, manager, c).Done?
    requires !(k == id && (c.UnassignWorker? || c.AssignWorker?) && c.worker == p)
    ensures var w' := Apply(env, w, id, manager, c).world;
            forall i | |w.shared.notices| <= i < |w'.shared.notices| :: Weight(w'.shared.notices[i], k, p) == 0
  {
    if c.UnassignWorker? {
      var a := Subs(w, id)[FindWorker(Subs(w, id), c.worker)];
      assert a.value.worker == c.worker;
    }
  }

  lemma UnassignBalanced(env: Env, w: World, id: Id, manager: Address, p: PeerId)
    requires Balanced(w, id, p) && Open(w, id) && Distinct(Subs(w, id))
    requires Apply(env, w, id, manager, UnassignWorker(p)).Done?
    ensures Balanced(Apply(env, w, id, manager, UnassignWorker(p)).world, id, p)
  {
    hide ToldTo;
    hide Alternating;
    var w' := Apply(env, w, id, manager, UnassignWorker(p)).world;
    var t := w.shared.tasks[id].completeness;
    UnassignKeeps(t, p);
    var a := t.substates[FindWorker(t.substates, p)].value;
    var notices := w.shared.notices;
    var first := (id, UnassignedFrom(a.worker, a.workersManager));
    ToldOne(notices, first, id, p);
    ToldOne(notices + [first], (id, Pending), id, p);
    assert w'.shared.notices == notices + [first] + [(id, Pending)];
    assert Assigns(w, id, p);
  }

  lemma AssignBalanced(env: Env, w: World, id: Id, manager: Address, p: PeerId, m: PeerId, pay: PaymentInfo)
    requires Balanced(w, id, p) && Open(w, id) && Distinct(Subs(w, id))
    requires Apply(env, w, id, manager, AssignWorker(p, m, pay)).Done?
    ensures Balanced(Apply(env, w, id, manager, AssignWorker(p, m, pay)).world, id, p)
  {
    hide ToldTo;
    hide Alternating;
    var w' := Apply(env, w, id, manager, AssignWorker(p, m, pay)).world;
    AssignKeeps(w.shared.tasks[id].completeness, Assigned(env.now, p, m, pay));
    ToldOne(w.shared.notices, (id, AssignedTo(p)), id, p);
    assert w'.shared.notices == w.shared.notices + [(id, AssignedTo(p))];
    assert !Assigns(w, id, p);
  }

  lemma CreateBalanced(env: Env, w: World, id: Id, manager: Address, c: StateChange, k: Id, p: PeerId)
    requires Balanced(w, k, p) && c.Create? && id !in w.shared.tasks && Apply(env, w, id, manager, c).Done?
    ensures var w' := Apply(env, w, id, manager, c).world; Balanced(w', k, p) && Apart(w', id)
  {
    hide ToldTo;
    hide Alternating;
    var w' := Apply(env, w, id, manager, c).world;
    var info := w'.shared.jobs[c.jobId];
    FreshFree(info.redundancy);
    if k == id { AllReleased(w', id, p); }
    OthersBalanced(w, w', k, p);
  }

  lemma AllReleased(w: World, id: Id, p: PeerId)
    requires Open(w, id) && Free(Subs(w, id)) == |Subs(w, id)|
    ensures !Assigns(w, id, p)
  {
    OracleRuns.AllReleased(w, id, p);
  }

  lemma ApplyBalanced(env: Env, w: World, id: Id, manager: Address, c: StateChange, k: Id, p: PeerId)
    requires Balanced(w, k, p) && Apart(w, id) && (c.Create? ==> id !in w.shared.tasks)
    requires Apply(env, w, id, manager, c).Done?
    ensures Balanced(Apply(env, w, id, manager, c).world, k, p) && Apart(Apply(env, w, id, manager, c).world, id)
  {
    hide ToldTo;
    hide Alternating;
    hide Balanced;
    if c.Create? {
      CreateBalanced(env, w, id, manager, c, k, p);
    } else if Plain(c) {
      ApplySteady(env, w, id, manager, c);
      if k == id && (c.UnassignWorker? || c.AssignWorker?) && c.worker == p {
        if c.UnassignWorker? { UnassignBalanced(env, w, id, manager, p); }
        else { AssignBalanced(env, w, id, manager, p, c.workersManager, c.payment); }
      } else {
        PlainBalanced(env, w, id, manager, c, k, p);
      }
    } else {
      EndBalanced(env, w, id, manager, c, k, p);
    }
  }

  lemma EndBalanced(env: Env, w: World, id: Id, manager: Address, c: StateChange, k: Id, p: PeerId)
    requires Balanced(w, k, p) && (c.Complete? || c.Fail?) && Apply(env, w, id, manager, c).Done?
    ensures var w' := Apply(env, w, id, manager, c).world; Balanced(w', k, p) && !Open(w', id)
  {
    hide ToldTo;
    hide Alternating;
    hide FinishCompleted;
    hide FinishFailed;
  }

  lemma {:induction false} ApplyAllBalanced(env: Env, w: World, id: Id, manager: Address, changes: seq<StateChange>, k: Id, p: PeerId)
    requires Balanced(w, k, p) && Apart(w, id) && ApplyAll(env, w, id, manager, changes).Done?
    requires forall i | 0 <= i < |changes| && changes[i].Create? :: i == 0 && id !in w.shared.tasks
    ensures Balanced(ApplyAll(env, w, id, manager, changes).world, k, p)
    ensures Apart(ApplyAll(env, w, id, manager, changes).world, id)
  {
    hide Apply;
    hide Balanced;
    if changes != [] {
      var n := |changes| - 1;
      ApplyAllBalanced(env, w, id, manager, changes[..n], k, p);
      assert n == 0 ==> changes[..n] == [];
      ApplyBalanced(env, ApplyAll(env, w, id, manager, changes[..n]).world, id, manager, changes[n], k, p);
    }
  }

  lemma ProposeBalanced(env: Env, w: World, proposal: Proposal, k: Id, p: PeerId)
    requires WorldOk(env.h, w) && Balanced(w, k, p) && Propose(env, w, proposal).Done?
    ensures Balanced(Propose(env, w, proposal).world, k, p)
  {
    hide EscrowSafety.Inv;
    hide ApplyAll;
    hide Balanced;
    hide Sort;
    if Well(proposal) && Handle(env, w, proposal.taskId.value, proposal.kind).Accept? {
      var id, manager := proposal.taskId.value, proposal.payment.value;
      var changes := Handle(env, w, id, proposal.kind).changes;
      var sorted := Sort(changes + [AddManager]);
      OpenApart(env.h, w, id);
      CreatesFirst(env, w, id, proposal.kind);
      ApplyAllBalanced(env, w, id, manager, sorted, k, p);
    }
  }

  lemma OpenApart(h: Escrow.Hashes, w: World, id: Id)
    requires WorldOk(h, w)
    ensures Apart(w, id)
  {
    hide EscrowSafety.Inv;
    if Open(w, id) { assert TaskShape(w, id); }
  }

  /** A task is created by the first change of its proposal, and only if it is unknown. */
  lemma CreatesFirst(env: Env, w: World, id: Id, kind: Kind)
    requires WorldOk(env.h, w) && Handle(env, w, id, kind).Accept?
    ensures var sorted := Sort(Handle(env, w, id, kind).changes + [AddManager]);
            forall i | 0 <= i < |sorted| && sorted[i].Create? :: i == 0 && id !in w.shared.tasks
  {
    hide WorldOk;
    hide Sort;
    var changes := Handle(env, w, id, kind).changes;
    var sorted := Sort(changes + [AddManager]);
    if kind.NewTask? {
      assert changes + [AddManager] == [changes[0], AddManager];
      SortOfSorted([changes[0], AddManager]);
    } else {
      OracleRuns.AcceptedFrame(env, w, id, kind);
      forall i | 0 <= i < |sorted| ensures !sorted[i].Create? {
        OracleRuns.SortedFrom(changes + [AddManager], i);
        assert sorted[i] in changes || sorted[i] == AddManager;
      }
    }
  }

  /** Over every run: what is told about a worker alternates, and the last word is true while the task is open. */
  lemma {:induction false} RunBalanced(h: Escrow.Hashes, oracle: Address, steps: seq<OracleRuns.SystemStep>, id: Id, p: PeerId)
    requires forall i | 0 <= i < |steps| :: OracleRuns.NodeOnly(oracle, steps[i])
    requires OracleRuns.RunWorld(h, oracle, OracleRuns.Start(oracle), steps).Done?
    ensures Balanced(OracleRuns.RunWorld(h, oracle, OracleRuns.Start(oracle), steps).world, id, p)
  {
    hide WorldOk;
    hide Propose;
    if steps != [] {
      var n := |steps| - 1;
      RunBalanced(h, oracle, steps[..n], id, p);
      OracleRuns.RunWorldOk(h, oracle, steps[..n]);
      var before := OracleRuns.RunWorld(h, oracle, OracleRuns.Start(oracle), steps[..n]).world;
      if steps[n].Proposed? {
        ProposeBalanced(Env(h, oracle, steps[n].now), before, steps[n].proposal, id, p);
      }
    }
  }

  // ---------------------------------------------------------------- the table of a manager

  datatype SlotStep =
    | Hear(id: Id, notice: Notice)
    | Status(peer: PeerId, id: Id)
    | Plan(tasks: seq<(Id, nat)>)
    | Join(peer: PeerId, cpus: nat)
    | Leave(peer: PeerId)

  /** `handle_shared_state_change`, on the slots. */
  function AfterNotice(ws: seq<Workers.WorkerData>, id: Id, notice: Notice): seq<Workers.WorkerData> {
    match notice
    case Pending => ws
    case AssignedTo(worker) => Workers.WithSlots(ws, worker, Workers.AfterAssign(ws, worker, id))
    case UnassignedFrom(worker, _) => Workers.WithSlots(ws, worker, Workers.AfterUnassign(ws, worker, id))
  }

  /** `None` is the panic of `handle_task_status`: the worker had no slot on the task. */
  function AfterSlotStep(ws: seq<Workers.WorkerData>, step: SlotStep): Option<seq<Workers.WorkerData>> {
    match step
    case Hear(id, notice) => Some(AfterNotice(ws, id, notice))
    case Status(peer, id) =>
      var slots := Workers.AfterUnassign(ws, peer, id);
      if slots.None? then None else Some(Workers.WithSlots(ws, peer, slots))
    case Plan(tasks) => Some(Scheduler.Schedule(ws, tasks).workers)
    case Join(peer, cpus) => Some(Workers.Pushed(ws, peer, cpus))
    case Leave(peer) => Some(Workers.Removed(ws, peer))
  }

  function AfterSlotRun(steps: seq<SlotStep>): Option<seq<Workers.WorkerData>> {
    if steps == [] then Some([])
    else
      var before := AfterSlotRun(steps[..|steps| - 1]);
      if before.None? then None else AfterSlotStep(before.value, steps[|steps| - 1])
  }

  ghost function Heard(steps: seq<SlotStep>): seq<(Id, Notice)> {
    if steps == [] then []
    else
      var last := steps[|steps| - 1];
      Heard(steps[..|steps| - 1]) + (if last.Hear? then [(last.id, last.notice)] else [])
  }

  /** Slots of `p` that work on `id`. */
  ghost function Work(ws: seq<Workers.WorkerData>, p: PeerId, id: Id): nat {
    var slots := Workers.SlotsOf(ws, p);
    if slots.Some? then Workers.Count(slots.value, Workers.Assigned(id)) else 0
  }

  lemma WithSlotsWork(ws: seq<Workers.WorkerData>, q: PeerId, slots: Option<seq<Workers.Slot>>, p: PeerId, id: Id)
    requires Workers.DistinctPeers(ws)
    ensures var after := Workers.WithSlots(ws, q, slots);
            && Workers.DistinctPeers(after)
            && (p != q ==> Work(after, p, id) == Work(ws, p, id))
            && (p == q && slots.Some? && Workers.SlotsOf(ws, q).Some? ==>
                  Work(after, p, id) == Workers.Count(slots.value, Workers.Assigned(id)))
  {
    hide Workers.Count;
    var after := Workers.WithSlots(ws, q, slots);
    var k, k' := Workers.FindPeer(ws, p), Workers.FindPeer(after, p);
    assert forall i | 0 <= i < |ws| :: after[i].peer == ws[i].peer;
    if k < |ws| { assert after[k].peer == p; }
    if k' < |ws| { assert ws[k'].peer == p; }
    assert k == k';
  }

  lemma NoticeWork(ws: seq<Workers.WorkerData>, t: Id, notice: Notice, p: PeerId, id: Id)
    requires Workers.DistinctPeers(ws)
    ensures var after := AfterNotice(ws, t, notice);
            && Workers.DistinctPeers(after)
            && Work(after, p, id) <= Work(ws, p, id) + (if Weight((t, notice), id, p) == 1 then 1 else 0)
            && (Weight((t, notice), id, p) == -1 ==> Work(after, p, id) == 0 || Work(after, p, id) == Work(ws, p, id) - 1)
  {
    hide Workers.Assign;
    hide Workers.Unassign;
    hide Workers.Count;
    match notice
    case Pending =>
    case AssignedTo(worker) =>
      WithSlotsWork(ws, worker, Workers.AfterAssign(ws, worker, t), p, id);
      if p == worker && Workers.SlotsOf(ws, worker).Some? { Workers.AssignCounts(Workers.SlotsOf(ws, worker).value, t); }
    case UnassignedFrom(worker, _) =>
      WithSlotsWork(ws, worker, Workers.AfterUnassign(ws, worker, t), p, id);
      if p == worker && Workers.SlotsOf(ws, worker).Some? { Workers.UnassignCounts(Workers.SlotsOf(ws, worker).value, t); }
  }

  /** A notice takes one slot of its worker for the task when one does not work, or frees one that works on it. */
  lemma NoticeExact(ws: seq<Workers.WorkerData>, t: Id, notice: Notice)
    requires Workers.DistinctPeers(ws)
    ensures notice.Pending? ==> AfterNotice(ws, t, notice) == ws
    ensures notice.AssignedTo? ==>
              if Workers.AfterAssign(ws, notice.worker, t).None? then AfterNotice(ws, t, notice) == ws
              else Work(AfterNotice(ws, t, notice), notice.worker, t) == Work(ws, notice.worker, t) + 1
    ensures notice.UnassignedFrom? ==>
              if Work(ws, notice.worker, t) == 0 then AfterNotice(ws, t, notice) == ws
              else Work(AfterNotice(ws, t, notice), notice.worker, t) == Work(ws, notice.worker, t) - 1
  {
    hide Workers.Assign;
    hide Workers.Unassign;
    hide Workers.Count;
    match notice
    case Pending =>
    case AssignedTo(worker) =>
      WithSlotsWork(ws, worker, Workers.AfterAssign(ws, worker, t), worker, t);
      if Workers.SlotsOf(ws, worker).Some? { Workers.AssignCounts(Workers.SlotsOf(ws, worker).value, t); }
    case UnassignedFrom(worker, _) =>
      WithSlotsWork(ws, worker, Workers.AfterUnassign(ws, worker, t), worker, t);
      if Workers.SlotsOf(ws, worker).Some? { Workers.UnassignCounts(Workers.SlotsOf(ws, worker).value, t); }
  }

  /** A status frees a slot, or panics exactly when the worker has none on the task. */
  lemma StatusWork(ws: seq<Workers.WorkerData>, q: PeerId, t: Id, p: PeerId, id: Id)
    requires Workers.DistinctPeers(ws)
    ensures var r := AfterSlotStep(ws, Status(q, t));
            && (r.None? <==> Work(ws, q, t) == 0)
            && (r.Some? ==>
                  && Workers.DistinctPeers(r.value)
                  && Work(r.value, p, id) == Work(ws, p, id) - (if p == q && id == t then 1 else 0))
  {
    hide Workers.Unassign;
    hide Workers.Count;
    var slots := Workers.SlotsOf(ws, q);
    if slots.Some? { Workers.UnassignCounts(slots.value, t); }
    if Workers.AfterUnassign(ws, q, t).Some? { WithSlotsWork(ws, q, Workers.AfterUnassign(ws, q, t), p, id); }
  }

  lemma {:induction false} SameWorkAssigned(a: seq<Workers.Slot>, b: seq<Workers.Slot>, id: Id)
    requires Workers.SameWork(a, b)
    ensures Workers.Count(a, Workers.Assigned(id)) == Workers.Count(b, Workers.Assigned(id))
  {
    if a != [] {
      var n := |a| - 1;
      assert Workers.SameWork(a[..n], b[..n]) by {
        assert forall i | 0 <= i < n :: a[..n][i] == a[i] && b[..n][i] == b[i];
      }
      SameWorkAssigned(a[..n], b[..n], id);
    }
  }

  lemma PlanWork(ws: seq<Workers.WorkerData>, tasks: seq<(Id, nat)>, p: PeerId, id: Id)
    requires Workers.DistinctPeers(ws)
    ensures var after := Scheduler.Schedule(ws, tasks).workers;
            Workers.DistinctPeers(after) && Work(after, p, id) == Work(ws, p, id)
  {
    hide Scheduler.Schedule;
    hide Workers.SortedPeers;
    hide Workers.Count;
    hide Workers.SameWork;
    Scheduler.SchedulePromises(ws, tasks);
    if Workers.SortedPeers(ws) != [] {
      var after := Scheduler.Schedule(ws, tasks).workers;
      assert forall i | 0 <= i < |ws| :: after[i].peer == ws[i].peer;
      var k, k' := Workers.FindPeer(ws, p), Workers.FindPeer(after, p);
      if k < |ws| { assert after[k].peer == p; }
      if k' < |ws| { assert ws[k'].peer == p; }
      assert k == k';
      if k < |ws| { SameWorkAssigned(ws[k].slots, after[k].slots, id); }
    }
  }

  lemma JoinWork(ws: seq<Workers.WorkerData>, q: PeerId, cpus: nat, p: PeerId, id: Id)
    requires Workers.DistinctPeers(ws)
    ensures Workers.DistinctPeers(Workers.Pushed(ws, q, cpus)) && Work(Workers.Pushed(ws, q, cpus), p, id) == Work(ws, p, id)
  {
    hide Workers.Count;
    hide Workers.Removed;
    Workers.PushRemove(ws, q, cpus);
    var pushed := Workers.Pushed(ws, q, cpus);
    var k, k' := Workers.FindPeer(ws, p), Workers.FindPeer(pushed, p);
    assert forall x | 0 <= x < |ws| :: pushed[x] == ws[x];
    NoneAssigned(cpus, id);
    if k < |ws| { assert pushed[k].peer == p; }
    if k' < |ws| { assert ws[k'].peer == p; }
  }

  lemma LeaveWork(ws: seq<Workers.WorkerData>, q: PeerId, p: PeerId, id: Id)
    requires Workers.DistinctPeers(ws)
    ensures Workers.DistinctPeers(Workers.Removed(ws, q))
    ensures Work(Workers.Removed(ws, q), p, id) == if p == q then 0 else Work(ws, p, id)
  {
    hide Workers.Count;
    hide Workers.Pushed;
    hide Workers.Removed;
    Workers.PushRemove(ws, q, 0);
    if p != q { SlotsStay(ws, q, p); }
  }

  lemma SlotsStay(ws: seq<Workers.WorkerData>, q: PeerId, p: PeerId)
    requires p != q
    ensures Workers.SlotsOf(Workers.Removed(ws, q), p) == Workers.SlotsOf(ws, p)
  {
    var removed, i := Workers.Removed(ws, q), Workers.FindPeer(ws, q);
    var k, k' := Workers.FindPeer(ws, p), Workers.FindPeer(removed, p);
    if i < |ws| {
      assert forall x | 0 <= x < |removed| :: removed[x] == ws[if x < i then x else x + 1];
      if k < |ws| { assert removed[if k < i then k else k - 1].peer == p; }
      if k' < |removed| { assert ws[if k' < i then k' else k' + 1].peer == p; }
    }
  }

  lemma {:induction false} NoneAssigned(n: nat, id: Id)
    ensures Workers.Count(seq(n, i => Workers.Available), Workers.Assigned(id)) == 0
  {
    if n > 0 {
      NoneAssigned(n - 1, id);
      var slots: seq<Workers.Slot> := seq(n, i => Workers.Available);
      assert slots[..n - 1] == seq(n - 1, i => Workers.Available);
    }
  }

  /**
   Whatever a manager plans, hears from its workers, and whichever workers come and go: when what it
   was told about a worker alternates, at most one slot of the worker works on the task, and none
   unless the last word was an assignment.
   */
  lemma {:induction false} SlotsFollow(steps: seq<SlotStep>, p: PeerId, id: Id)
    requires Alternating(Heard(steps), id, p) && AfterSlotRun(steps).Some?
    ensures Workers.DistinctPeers(AfterSlotRun(steps).value)
    ensures Work(AfterSlotRun(steps).value, p, id) <= ToldTo(Heard(steps), id, p) <= 1
  {
    hide AfterSlotStep;
    hide Workers.Count;
    if steps != [] {
      var n := |steps| - 1;
      HeardPrefix(steps, id, p);
      SlotsFollow(steps[..n], p, id);
      StepFollows(AfterSlotRun(steps[..n]).value, steps[n], Heard(steps[..n]), p, id);
    } else {
      assert Heard(steps)[..0] == [];
    }
  }

  lemma HeardPrefix(steps: seq<SlotStep>, id: Id, p: PeerId)
    requires steps != [] && Alternating(Heard(steps), id, p)
    ensures Alternating(Heard(steps[..|steps| - 1]), id, p)
  {
    var before, after := Heard(steps[..|steps| - 1]), Heard(steps);
    forall n | 0 <= n <= |before| ensures before[..n] == after[..n] {
    }
  }

  lemma StepFollows(ws: seq<Workers.WorkerData>, step: SlotStep, heard: seq<(Id, Notice)>, p: PeerId, id: Id)
    requires Workers.DistinctPeers(ws) && Alternating(heard, id, p) && Work(ws, p, id) <= ToldTo(heard, id, p)
    requires step.Hear? ==> Alternating(heard + [(step.id, step.notice)], id, p)
    requires AfterSlotStep(ws, step).Some?
    ensures var after := AfterSlotStep(ws, step).value;
            var heard' := heard + (if step.Hear? then [(step.id, step.notice)] else []);
            && Workers.DistinctPeers(after) && Work(after, p, id) <= ToldTo(heard', id, p) <= 1
  {
    hide Work;
    hide Workers.Pushed;
    hide Workers.Removed;
    hide Scheduler.Schedule;
    assert heard + [] == heard && heard[..|heard|] == heard;
    match step
    case Hear(t, notice) =>
      NoticeWork(ws, t, notice, p, id);
      ToldOne(heard, (t, notice), id, p);
      var more := heard + [(t, notice)];
      assert more[..|more|] == more;
    case Status(q, t) => StatusWork(ws, q, t, p, id);
    case Plan(tasks) => PlanWork(ws, tasks, p, id);
    case Join(q, cpus) => JoinWork(ws, q, cpus, p, id);
    case Leave(q) => LeaveWork(ws, q, p, id);
  }

  /**
   A manager that heard some of what the oracle told in a run keeps at most one slot of a worker on a
   task. Once the last word it heard is that the worker lost the task, a status the worker still sends
   for it makes the manager panic.
   */
  lemma LateStatusPanics(h: Escrow.Hashes, oracle: Address, run: seq<OracleRuns.SystemStep>, steps: seq<SlotStep>,
                         p: PeerId, id: Id)
    requires forall i | 0 <= i < |run| :: OracleRuns.NodeOnly(oracle, run[i])
    requires var r := OracleRuns.RunWorld(h, oracle, OracleRuns.Start(oracle), run);
             r.Done? && Heard(steps) <= r.world.shared.notices
    requires AfterSlotRun(steps).Some?
    ensures Work(AfterSlotRun(steps).value, p, id) <= 1
    ensures ToldTo(Heard(steps), id, p) == 0 ==> AfterSlotRun(steps + [Status(p, id)]).None?
  {
    hide AfterSlotStep;
    hide Work;
    RunBalanced(h, oracle, run, id, p);
    var notices := OracleRuns.RunWorld(h, oracle, OracleRuns.Start(oracle), run).world.shared.notices;
    assert Alternating(Heard(steps), id, p) by {
      forall n | 0 <= n <= |Heard(steps)| ensures Heard(steps)[..n] == notices[..n] {
      }
    }
    SlotsFollow(steps, p, id);
    StatusWork(AfterSlotRun(steps).value, p, id, p, id);
    assert (steps + [Status(p, id)])[..|steps|] == steps;
  }

  /** An assignment is aborted when the worker is not in the table or all its slots work. */
  lemma AbortsIff(ws: seq<Workers.WorkerData>, worker: PeerId, id: Id)
    ensures Workers.AfterAssign(ws, worker, id).None?
            <==> forall i | 0 <= i < |ws| && ws[i].peer == worker && (forall k | 0 <= k < i :: ws[k].peer != worker) ::
                   Workers.Unassigned(ws[i].slots) == 0
  {
    var k := Workers.FindPeer(ws, worker);
    if k < |ws| { Workers.AssignCounts(ws[k].slots, id); }
  }

  /**
   The oracle hears of every assignment. One of a worker that is not its own it aborts, whoever manages the
   worker; the abort is accepted, and the worker loses the task again.
   */
  lemma ForeignAborted(env: Env, w: World, ws: seq<Workers.WorkerData>, address: Address, id: Id, worker: PeerId)
    requires WorldOk(env.h, w) && Open(w, id) && Assigns(w, id, worker)
    requires forall i | 0 <= i < |ws| :: ws[i].peer != worker
    ensures Workers.AfterAssign(ws, worker, id).None?
    ensures var r := Propose(env, w, Scheduler.AbortProposal(address, w, id, worker));
            r.Done? && Open(r.world, id) && !Assigns(r.world, id, worker)
  {
    AbortsIff(ws, worker, id);
    Scheduler.AbortReleases(env, w, address, id, worker);
  }

  // ---------------------------------------------------------------- in memory

  /** Whether the manager must abort an assignment because the worker has no slot for it. */
  method HandleSharedStateChange(table: Workers.Table, id: Id, notice: Notice) returns (abort: bool)
    requires table.Valid()
    modifies table.workers
    ensures table.Valid() && table.Data() == AfterNotice(old(table.Data()), id, notice)
    ensures abort <==> notice.AssignedTo? && Workers.AfterAssign(old(table.Data()), notice.worker, id).None?
  {
    hide Workers.AfterAssign;
    hide Workers.AfterUnassign;
    match notice
    case Pending => abort := false;
    case AssignedTo(worker) =>
      var taken := table.AssignSlot(worker, id);
      abort := !taken;
    case UnassignedFrom(worker, _) =>
      var freed := table.UnassignSlot(worker, id);
      abort := false;
  }

  /** `!ok` is a panic. */
  method HandleTaskStatus(table: Workers.Table, peer: PeerId, id: Id) returns (ok: bool)
    requires table.Valid()
    modifies table.workers
    ensures table.Valid() && ok == AfterSlotStep(old(table.Data()), Status(peer, id)).Some?
    ensures ok ==> table.Data() == AfterSlotStep(old(table.Data()), Status(peer, id)).value
  {
    hide Workers.AfterUnassign;
    ok := table.UnassignSlot(peer, id);
  }

  /** The tasks of the slots that work, in order. */
  function TasksOf(slots: seq<Workers.Slot>): seq<Id> {
    if slots == [] then []
    else
      var last := slots[|slots| - 1];
      TasksOf(slots[..|slots| - 1]) + (if last.Assigned? then [last.taskId] else [])
  }

  /** A task is aborted as often as a slot of the lost worker works on it. */
  lemma {:induction false} TasksOfCounts(slots: seq<Workers.Slot>, id: Id)
    ensures multiset(TasksOf(slots))[id] == Workers.Count(slots, Workers.Assigned(id))
  {
    if slots != [] { TasksOfCounts(slots[..|slots| - 1], id); }
  }

  /** The tasks to abort when a worker is gone; `None` is the panic for an unknown worker. */
  method DeleteWorker(table: Workers.Table, peer: PeerId) returns (lost: Option<seq<Id>>)
    requires table.Valid()
    modifies table
    ensures table.Valid() && table.Data() == Workers.Removed(old(table.Data()), peer)
    ensures lost.Some? <==> Workers.FindPeer(old(table.Data()), peer) < |old(table.Data())|
    ensures lost.Some? ==> forall id :: multiset(lost.value)[id] == Work(old(table.Data()), peer, id)
  {
    hide Workers.Removed;
    var slots := table.Remove(peer);
    if slots.None? { return None; }
    var ids, i := [], 0;
    while i < |slots.value|
      invariant 0 <= i <= |slots.value| && ids == TasksOf(slots.value[..i])
    {
      assert slots.value[..i + 1][..i] == slots.value[..i];
      if slots.value[i].Assigned? { ids := ids + [slots.value[i].taskId]; }
      i := i + 1;
    }
    assert slots.value[..i] == slots.value;
    forall id ensures multiset(ids)[id] == Work(old(table.Data()), peer, id) {
      TasksOfCounts(slots.value, id);
    }
    lost := Some(ids);
  }
}

/** How a manager offers its workers for the tasks that miss replicas. */
module Scheduler {
  import opened Base
  import opened Workers
  import opened SharedState
  import Oracle
  import opened OracleChanges
  import OracleSafety
  import OracleEffects
  import EscrowSafety

  /** The workers offered for one task. */
  datatype Selection = Selection(taskId: Id, peers: seq<PeerId>)

  datatype Plan = Plan(workers: seq<WorkerData>, selections: seq<Selection>)

  function Take(s: seq<PeerId>, n: nat): seq<PeerId> {
    if n < |s| then s[..n] else s
  }

  function ReserveOne(ws: seq<WorkerData>, peer: PeerId): seq<WorkerData> {
    WithSlots(ws, peer, AfterReserve(ws, peer))
  }

  function ReserveEach(ws: seq<WorkerData>, peers: seq<PeerId>): seq<WorkerData> {
    if peers == [] then ws else ReserveOne(ReserveEach(ws, peers[..|peers| - 1]), peers[|peers| - 1])
  }

  /** One turn of the loop over the tasks, for a task that misses `task.1` replicas. */
  function Offer(p: Plan, task: (Id, nat)): Plan {
    var peers := SortedPeers(p.workers);
    if peers == [] then p
    else
      var chosen := Take(peers, task.1);
      Plan(ReserveEach(p.workers, chosen), p.selections + [Selection(task.0, chosen)])
  }

  function OfferEach(ws: seq<WorkerData>, tasks: seq<(Id, nat)>): Plan {
    if tasks == [] then Plan(ws, []) else Offer(OfferEach(ws, tasks[..|tasks| - 1]), tasks[|tasks| - 1])
  }

  /** `propose_assignements`: promises of the previous call are dropped first. */
  function Schedule(ws: seq<WorkerData>, tasks: seq<(Id, nat)>): Plan {
    if SortedPeers(ws) == [] then Plan(ws, []) else OfferEach(UnreserveAll(ws), tasks)
  }

  // ---------------------------------------------------------------- what the plan means

  /** Offers that name `peer`. */
  ghost function Named(selections: seq<Selection>, peer: PeerId): nat {
    if selections == [] then 0
    else Named(selections[..|selections| - 1], peer) + (if peer in selections[|selections| - 1].peers then 1 else 0)
  }

  function Min(a: nat, b: nat): nat {
    if a < b then a else b
  }

  ghost predicate CanWork(w: WorkerData) {
    Unassigned(w.slots) > 0
  }

  ghost predicate HasRoom(w: WorkerData) {
    Count(w.slots, Available) > 0
  }

  function Idle(ws: seq<WorkerData>): nat {
    if ws == [] then 0 else Idle(ws[..|ws| - 1]) + (if Unassigned(ws[|ws| - 1].slots) > 0 then 1 else 0)
  }

  lemma NoRepeatAppend(peers: seq<PeerId>, last: PeerId)
    requires NoRepeat(peers) && last !in peers
    ensures NoRepeat(peers + [last])
  {
  }

  lemma {:induction false} HavingMembers(ws: seq<WorkerData>, available: bool)
    requires DistinctPeers(ws)
    ensures NoRepeat(Having(ws, available))
    ensures forall peer :: peer in Having(ws, available) <==>
              exists i :: 0 <= i < |ws| && ws[i].peer == peer && CanWork(ws[i]) && HasRoom(ws[i]) == available
  {
    if ws != [] {
      var n := |ws| - 1;
      HavingMembers(ws[..n], available);
      forall peer | peer in Having(ws[..n], available) ensures peer != ws[n].peer {
        var i :| 0 <= i < n && ws[..n][i].peer == peer;
        assert ws[i].peer == peer;
      }
      NoRepeatAppend(Having(ws[..n], available), ws[n].peer);
      forall peer
        ensures peer in Having(ws, available) <==>
          exists i :: 0 <= i < |ws| && ws[i].peer == peer && CanWork(ws[i]) && HasRoom(ws[i]) == available
      {
        if i :| 0 <= i < |ws| && ws[i].peer == peer && CanWork(ws[i]) && HasRoom(ws[i]) == available {
          if i < n { assert ws[..n][i] == ws[i]; }
        }
        if peer in Having(ws[..n], available) {
          var i :| 0 <= i < n && ws[..n][i].peer == peer && CanWork(ws[..n][i]) && HasRoom(ws[..n][i]) == available;
          assert ws[i] == ws[..n][i];
        }
      }
    }
  }

  lemma {:induction false} HavingCount(ws: seq<WorkerData>)
    ensures |Having(ws, true)| + |Having(ws, false)| == Idle(ws)
  {
    if ws != [] {
      HavingCount(ws[..|ws| - 1]);
    }
  }

  /** Each peer that can work, once, those with an available slot first. */
  lemma SortedMembers(ws: seq<WorkerData>)
    requires DistinctPeers(ws)
    ensures NoRepeat(SortedPeers(ws)) && |SortedPeers(ws)| == Idle(ws)
    ensures forall i | 0 <= i < |ws| :: ws[i].peer in SortedPeers(ws) <==> CanWork(ws[i])
    ensures forall peer | peer in SortedPeers(ws) :: FindPeer(ws, peer) < |ws|
    ensures forall a, b | 0 <= a < b < |SortedPeers(ws)| && HasRoom(ws[FindPeer(ws, SortedPeers(ws)[b])]) ::
              HasRoom(ws[FindPeer(ws, SortedPeers(ws)[a])])
  {
    hide Having;
    hide HasRoom;
    hide CanWork;
    HavingMembers(ws, true);
    HavingMembers(ws, false);
    HavingCount(ws);
    forall peer | peer in SortedPeers(ws) ensures FindPeer(ws, peer) < |ws| {
      KindOf(ws, peer);
    }
    forall peer ensures !(peer in Having(ws, true) && peer in Having(ws, false)) {
      if peer in Having(ws, true) && peer in Having(ws, false) { KindOf(ws, peer); }
    }
    forall i | 0 <= i < |ws| ensures ws[i].peer in SortedPeers(ws) <==> CanWork(ws[i]) {
      var peer := ws[i].peer;
      if CanWork(ws[i]) { assert peer in Having(ws, HasRoom(ws[i])); }
      if peer in SortedPeers(ws) { KindOf(ws, peer); }
    }
    forall a, b | 0 <= a < b < |SortedPeers(ws)| && HasRoom(ws[FindPeer(ws, SortedPeers(ws)[b])])
      ensures HasRoom(ws[FindPeer(ws, SortedPeers(ws)[a])])
    {
      KindOf(ws, SortedPeers(ws)[a]);
      KindOf(ws, SortedPeers(ws)[b]);
    }
  }

  lemma KindOf(ws: seq<WorkerData>, peer: PeerId)
    requires DistinctPeers(ws)
    requires peer in Having(ws, true) || peer in Having(ws, false)
    ensures var i := FindPeer(ws, peer);
            && i < |ws| && CanWork(ws[i])
            && (peer in Having(ws, true) <==> HasRoom(ws[i]))
            && (peer in Having(ws, false) <==> !HasRoom(ws[i]))
  {
    HavingMembers(ws, true);
    HavingMembers(ws, false);
    var k := FindPeer(ws, peer);
    if peer in Having(ws, true) {
      var i :| 0 <= i < |ws| && ws[i].peer == peer && CanWork(ws[i]) && HasRoom(ws[i]) == true;
      assert i == k;
    }
    if peer in Having(ws, false) {
      var i :| 0 <= i < |ws| && ws[i].peer == peer && CanWork(ws[i]) && HasRoom(ws[i]) == false;
      assert i == k;
    }
  }

  // ---------------------------------------------------------------- reserving

  /** The row of a worker after one reservation. */
  function Reserved(slots: seq<Slot>): seq<Slot> {
    if Reserve(slots).Some? then Reserve(slots).value else slots
  }

  lemma ReservedCounts(slots: seq<Slot>)
    ensures SameWork(slots, Reserved(slots))
    ensures Count(Reserved(slots), Pending) == Min(Unassigned(slots), Count(slots, Pending) + 1)
  {
    ReserveCounts(slots);
    UnassignedSplit(slots);
  }

  lemma {:induction false} ReserveEachRows(ws: seq<WorkerData>, peers: seq<PeerId>)
    requires DistinctPeers(ws) && NoRepeat(peers)
    ensures var after := ReserveEach(ws, peers);
            && |after| == |ws| && DistinctPeers(after)
            && forall i | 0 <= i < |ws| ::
                 after[i] == WorkerData(ws[i].peer, if ws[i].peer in peers then Reserved(ws[i].slots) else ws[i].slots)
  {
    hide Reserve;
    if peers != [] {
      var n := |peers| - 1;
      ReserveEachRows(ws, peers[..n]);
      var before, after := ReserveEach(ws, peers[..n]), ReserveEach(ws, peers);
      forall i | 0 <= i < |ws|
        ensures after[i] == WorkerData(ws[i].peer, if ws[i].peer in peers then Reserved(ws[i].slots) else ws[i].slots)
      {
        assert peers == peers[..n] + [peers[n]];
        assert before[FindPeer(before, peers[n])..] == [] || before[FindPeer(before, peers[n])].peer == peers[n];
        if ws[i].peer == peers[n] {
          assert before[i].peer == peers[n];
          assert FindPeer(before, peers[n]) == i;
        }
      }
    }
  }

  /** What a plan has promised so far, worker by worker. */
  ghost predicate Promises(ws: seq<WorkerData>, p: Plan) {
    && |p.workers| == |ws|
    && forall i | 0 <= i < |ws| ::
         && p.workers[i].peer == ws[i].peer
         && SameWork(ws[i].slots, p.workers[i].slots)
         && Count(p.workers[i].slots, Pending) == Min(Unassigned(ws[i].slots), Named(p.selections, ws[i].peer))
  }

  lemma OfferPromises(ws: seq<WorkerData>, p: Plan, task: (Id, nat))
    requires DistinctPeers(ws) && Promises(ws, p)
    ensures Promises(ws, Offer(p, task))
  {
    hide Reserve;
    hide Count;
    hide Unassigned;
    hide SortedPeers;
    hide ReserveEach;
    hide SameWork;
    hide Reserved;
    hide Named;
    DistinctAfter(ws, p.workers);
    SortedMembers(p.workers);
    var chosen := Take(SortedPeers(p.workers), task.1);
    if SortedPeers(p.workers) != [] {
      ReserveEachRows(p.workers, chosen);
      var after := Offer(p, task);
      forall i | 0 <= i < |ws|
        ensures && after.workers[i].peer == ws[i].peer
                && SameWork(ws[i].slots, after.workers[i].slots)
                && Count(after.workers[i].slots, Pending) == Min(Unassigned(ws[i].slots), Named(after.selections, ws[i].peer))
      {
        NamedMore(p.selections, Selection(task.0, chosen), ws[i].peer);
        OnePromise(ws[i].slots, p.workers[i].slots, Named(p.selections, ws[i].peer));
      }
    }
  }

  lemma NamedMore(selections: seq<Selection>, last: Selection, peer: PeerId)
    ensures Named(selections + [last], peer) == Named(selections, peer) + (if peer in last.peers then 1 else 0)
  {
    assert (selections + [last])[..|selections|] == selections;
  }

  /** One more offer of a worker promises one more of its slots, while there are any. */
  lemma OnePromise(start: seq<Slot>, slots: seq<Slot>, named: nat)
    requires SameWork(start, slots) && Count(slots, Pending) == Min(Unassigned(start), named)
    ensures SameWork(start, Reserved(slots)) && Count(Reserved(slots), Pending) == Min(Unassigned(start), named + 1)
  {
    hide Reserve;
    hide Reserved;
    hide Count;
    hide Unassigned;
    hide SameWork;
    ReservedCounts(slots);
    SameWorkCount(start, slots);
    SameWorkTrans(start, slots, Reserved(slots));
  }

  lemma DistinctAfter(ws: seq<WorkerData>, after: seq<WorkerData>)
    requires DistinctPeers(ws) && |after| == |ws| && forall i | 0 <= i < |ws| :: after[i].peer == ws[i].peer
    ensures DistinctPeers(after)
  {
  }

  lemma SameWorkTrans(a: seq<Slot>, b: seq<Slot>, c: seq<Slot>)
    requires SameWork(a, b) && SameWork(b, c)
    ensures SameWork(a, c)
  {
  }

  lemma {:induction false} OfferEachPromises(ws: seq<WorkerData>, tasks: seq<(Id, nat)>)
    requires DistinctPeers(ws)
    requires forall i | 0 <= i < |ws| :: Count(ws[i].slots, Pending) == 0
    ensures Promises(ws, OfferEach(ws, tasks))
  {
    hide Offer;
    if tasks != [] {
      OfferEachPromises(ws, tasks[..|tasks| - 1]);
      OfferPromises(ws, OfferEach(ws, tasks[..|tasks| - 1]), tasks[|tasks| - 1]);
    }
  }

  /**
   After scheduling, each worker has promised as many slots as offers name it, up to the slots that
   do not work, and every working slot is as before. With no worker able to work nothing changes.
   */
  lemma SchedulePromises(ws: seq<WorkerData>, tasks: seq<(Id, nat)>)
    requires DistinctPeers(ws)
    ensures SortedPeers(ws) == [] ==> Schedule(ws, tasks) == Plan(ws, [])
    ensures SortedPeers(ws) != [] ==> Promises(ws, Schedule(ws, tasks))
  {
    hide Unreserve;
    if SortedPeers(ws) != [] {
      var cleared := UnreserveAll(ws);
      forall i | 0 <= i < |ws| ensures SameWork(ws[i].slots, cleared[i].slots) && Count(cleared[i].slots, Pending) == 0 {
        UnreserveClears(ws[i].slots);
      }
      OfferEachPromises(cleared, tasks);
      var p := Schedule(ws, tasks);
      forall i | 0 <= i < |ws|
        ensures && p.workers[i].peer == ws[i].peer
                && SameWork(ws[i].slots, p.workers[i].slots)
                && Count(p.workers[i].slots, Pending) == Min(Unassigned(ws[i].slots), Named(p.selections, ws[i].peer))
      {
        SameWorkTrans(ws[i].slots, cleared[i].slots, p.workers[i].slots);
        SameWorkCount(ws[i].slots, cleared[i].slots);
      }
    }
  }

  lemma {:induction false} IdleSame(a: seq<WorkerData>, b: seq<WorkerData>)
    requires |a| == |b| && forall i | 0 <= i < |a| :: SameWork(a[i].slots, b[i].slots)
    ensures Idle(a) == Idle(b)
  {
    if a != [] {
      var n := |a| - 1;
      assert SameWork(a[n].slots, b[n].slots);
      SameWorkCount(a[n].slots, b[n].slots);
      forall i | 0 <= i < n ensures SameWork(a[..n][i].slots, b[..n][i].slots) {
        assert SameWork(a[i].slots, b[i].slots);
      }
      IdleSame(a[..n], b[..n]);
    }
  }

  /** A good choice of workers for one task, from the table as it stood when the task's turn came. */
  ghost predicate GoodChoice(ws: seq<WorkerData>, nb: nat, peers: seq<PeerId>) {
    && NoRepeat(peers) && |peers| == Min(nb, Idle(ws))
    && (forall peer | peer in peers :: FindPeer(ws, peer) < |ws| && CanWork(ws[FindPeer(ws, peer)]))
    && forall i, k | 0 <= i < |ws| && 0 <= k < |peers| && HasRoom(ws[i]) && !HasRoom(ws[FindPeer(ws, peers[k])]) ::
         ws[i].peer in peers[..k]
  }

  lemma RoomToWork(w: WorkerData)
    ensures HasRoom(w) ==> CanWork(w)
  {
    UnassignedSplit(w.slots);
  }

  lemma ChosenWell(ws: seq<WorkerData>, nb: nat)
    requires DistinctPeers(ws)
    ensures GoodChoice(ws, nb, Take(SortedPeers(ws), nb))
  {
    hide SortedPeers;
    hide HasRoom;
    SortedMembers(ws);
    var all, peers := SortedPeers(ws), Take(SortedPeers(ws), nb);
    forall peer | peer in peers ensures FindPeer(ws, peer) < |ws| && CanWork(ws[FindPeer(ws, peer)]) {
      assert peer in all;
    }
    forall i, k | 0 <= i < |ws| && 0 <= k < |peers| && HasRoom(ws[i]) && !HasRoom(ws[FindPeer(ws, peers[k])])
      ensures ws[i].peer in peers[..k]
    {
      RoomToWork(ws[i]);
      assert ws[i].peer in all;
      var x :| 0 <= x < |all| && all[x] == ws[i].peer;
      assert FindPeer(ws, all[x]) == i;
      assert peers[k] == all[k];
      assert x < k;
      assert peers[x] == all[x];
    }
  }

  /**
   One proposal for each task, in order: as many distinct workers as replicas are missing or workers
   can work, all able to work, and those with an available slot before the others.
   */
  lemma {:induction false} OfferEachChooses(ws: seq<WorkerData>, tasks: seq<(Id, nat)>)
    requires DistinctPeers(ws) && Idle(ws) > 0
    requires forall i | 0 <= i < |ws| :: Count(ws[i].slots, Pending) == 0
    ensures var selections := OfferEach(ws, tasks).selections;
            && |selections| == |tasks|
            && forall k | 0 <= k < |tasks| ::
                 && selections[k].taskId == tasks[k].0
                 && |selections[k].peers| == Min(tasks[k].1, Idle(ws))
                 && GoodChoice(OfferEach(ws, tasks[..k]).workers, tasks[k].1, selections[k].peers)
  {
    hide Reserve;
    hide GoodChoice;
    hide Promises;
    hide ReserveEach;
    hide SortedPeers;
    if tasks != [] {
      var n := |tasks| - 1;
      OfferEachChooses(ws, tasks[..n]);
      var before := OfferEach(ws, tasks[..n]);
      BeforeTurn(ws, tasks[..n]);
      ChosenWell(before.workers, tasks[n].1);
      ChoiceSize(before.workers, tasks[n].1);
      SortedMembers(before.workers);
      var selections := OfferEach(ws, tasks).selections;
      assert selections == before.selections + [Selection(tasks[n].0, Take(SortedPeers(before.workers), tasks[n].1))];
      forall k | 0 <= k < |tasks|
        ensures && selections[k].taskId == tasks[k].0
                && |selections[k].peers| == Min(tasks[k].1, Idle(ws))
                && GoodChoice(OfferEach(ws, tasks[..k]).workers, tasks[k].1, selections[k].peers)
      {
        if k < n {
          assert tasks[..n][..k] == tasks[..k] && tasks[..n][k] == tasks[k];
          assert selections[k] == before.selections[k];
        }
      }
    }
  }

  lemma BeforeTurn(ws: seq<WorkerData>, tasks: seq<(Id, nat)>)
    requires DistinctPeers(ws)
    requires forall i | 0 <= i < |ws| :: Count(ws[i].slots, Pending) == 0
    ensures DistinctPeers(OfferEach(ws, tasks).workers) && Idle(OfferEach(ws, tasks).workers) == Idle(ws)
  {
    OfferEachPromises(ws, tasks);
    IdleSame(ws, OfferEach(ws, tasks).workers);
  }

  lemma ChoiceSize(ws: seq<WorkerData>, nb: nat)
    requires DistinctPeers(ws)
    ensures |Take(SortedPeers(ws), nb)| == Min(nb, Idle(ws)) && (SortedPeers(ws) == [] <==> Idle(ws) == 0)
  {
    SortedMembers(ws);
  }

  /** `OfferEachChooses` for a whole call: one good choice a task as soon as one worker can work. */
  lemma ScheduleChooses(ws: seq<WorkerData>, tasks: seq<(Id, nat)>)
    requires DistinctPeers(ws) && Idle(ws) > 0
    ensures var selections := Schedule(ws, tasks).selections;
            && |selections| == |tasks|
            && forall k | 0 <= k < |tasks| ::
                 && selections[k].taskId == tasks[k].0
                 && |selections[k].peers| == Min(tasks[k].1, Idle(ws))
                 && GoodChoice(OfferEach(UnreserveAll(ws), tasks[..k]).workers, tasks[k].1, selections[k].peers)
  {
    hide Unreserve;
    hide GoodChoice;
    hide SortedPeers;
    var cleared := UnreserveAll(ws);
    forall i | 0 <= i < |ws| ensures SameWork(ws[i].slots, cleared[i].slots) && Count(cleared[i].slots, Pending) == 0 {
      UnreserveClears(ws[i].slots);
    }
    IdleSame(ws, cleared);
    ChoiceSize(ws, 0);
    OfferEachChooses(cleared, tasks);
  }

  // ---------------------------------------------------------------- the proposals it sends

  function OfferFor(node: PeerId, address: Address, id: Id, peer: PeerId): Oracle.Offer {
    Oracle.Offer(id, Some(address), Some(peer), Some(node), 1, 1)
  }

  function OffersFor(node: PeerId, address: Address, id: Id, peers: seq<PeerId>): seq<Oracle.Offer> {
    seq(|peers|, i requires 0 <= i < |peers| => OfferFor(node, address, id, peers[i]))
  }

  function ProposalFor(node: PeerId, address: Address, s: Selection): Oracle.Proposal {
    Oracle.Proposal(Some(address), Some(s.taskId), Oracle.Scheduling(OffersFor(node, address, s.taskId, s.peers)))
  }

  function ProposalsFor(node: PeerId, address: Address, selections: seq<Selection>): seq<Oracle.Proposal> {
    seq(|selections|, i requires 0 <= i < |selections| => ProposalFor(node, address, selections[i]))
  }

  /**
   A scheduling proposal of a manager never stops the oracle. It is accepted exactly when the task
   still misses replicas and none of the workers looked at has one already; then these and no others
   are assigned.
   */
  lemma ScheduledOutcome(env: Oracle.Env, w: Oracle.World, node: PeerId, address: Address, s: Selection)
    requires OracleSafety.WorldOk(env.h, w) && NoRepeat(s.peers)
    ensures var p := ProposalFor(node, address, s);
            var r := Oracle.Propose(env, w, p);
            && r.Done? && OracleSafety.WorldOk(env.h, r.world)
            && (Oracle.Handle(env, w, s.taskId, p.kind).Accept? <==> Fits(w, s))
            && (!Fits(w, s) ==> r.world == w)
            && (Fits(w, s) ==>
                  && Open(r.world, s.taskId)
                  && var looked := Take(s.peers, Free(Subs(w, s.taskId)));
                     && Free(Subs(r.world, s.taskId)) == Free(Subs(w, s.taskId)) - |looked|
                     && forall peer :: Assigns(r.world, s.taskId, peer)
                                       <==> Assigns(w, s.taskId, peer) || peer in looked)
  {
    hide EscrowSafety.Inv;
    hide OracleSafety.Core;
    hide Oracle.ApplyAll;
    hide Oracle.Sort;
    var p := ProposalFor(node, address, s);
    OracleSafety.ProposeOutcome(env, w, p);
    if Fits(w, s) {
      FitsTaken(w, node, address, s);
      assert OracleSafety.TaskShape(w, s.taskId);
      ScheduledAssigns(env, w, node, address, s);
    } else {
      NotFits(env, w, node, address, s);
    }
  }

  ghost predicate Fits(w: Oracle.World, s: Selection) {
    && Open(w, s.taskId) && Free(Subs(w, s.taskId)) > 0
    && forall peer | peer in Take(s.peers, Free(Subs(w, s.taskId))) ::
         !Assigns(w, s.taskId, peer)
  }

  lemma FitsTaken(w: Oracle.World, node: PeerId, address: Address, s: Selection)
    requires Fits(w, s) && NoRepeat(s.peers)
    ensures var t := w.shared.tasks[s.taskId];
            var offers := Oracle.Taken(t, OffersFor(node, address, s.taskId, s.peers));
            && offers == OffersFor(node, address, s.taskId, Take(s.peers, Free(t.completeness.substates)))
            && (forall i | 0 <= i < |offers| :: Oracle.OfferOk(t, s.taskId, offers[i]))
            && OfferWorkers(t, s.taskId, offers) == Take(s.peers, Free(t.completeness.substates))
            && NoRepeat(OfferWorkers(t, s.taskId, offers))
            && Oracle.HandleScheduling(w, s.taskId, OffersFor(node, address, s.taskId, s.peers))
               == Oracle.Accept(Oracle.AssignAll(t, s.taskId, offers))
  {
    var t := w.shared.tasks[s.taskId];
    var peers := Take(s.peers, Free(t.completeness.substates));
    var offers := Oracle.Taken(t, OffersFor(node, address, s.taskId, s.peers));
    assert offers == OffersFor(node, address, s.taskId, peers);
    forall i | 0 <= i < |offers| ensures Oracle.OfferOk(t, s.taskId, offers[i]) {
      assert peers[i] in peers;
      assert !Assigns(w, s.taskId, peers[i]);
    }
    assert OfferWorkers(t, s.taskId, offers) == peers;
  }

  lemma NotFits(env: Oracle.Env, w: Oracle.World, node: PeerId, address: Address, s: Selection)
    requires !Fits(w, s)
    ensures Oracle.Handle(env, w, s.taskId, ProposalFor(node, address, s).kind) == Oracle.Reject
  {
    if Open(w, s.taskId) && Free(Subs(w, s.taskId)) > 0 {
      var t := w.shared.tasks[s.taskId];
      var peers := Take(s.peers, Free(t.completeness.substates));
      var offers := Oracle.Taken(t, OffersFor(node, address, s.taskId, s.peers));
      assert offers == OffersFor(node, address, s.taskId, peers);
      var peer :| peer in peers && Assigns(w, s.taskId, peer);
      var i :| 0 <= i < |peers| && peers[i] == peer;
      assert !Oracle.OfferOk(t, s.taskId, offers[i]);
    }
  }

  lemma ScheduledAssigns(env: Oracle.Env, w: Oracle.World, node: PeerId, address: Address, s: Selection)
    requires OracleSafety.WorldOk(env.h, w) && NoRepeat(s.peers) && Fits(w, s)
    ensures var r := Oracle.Propose(env, w, ProposalFor(node, address, s));
            && r.Done? && Open(r.world, s.taskId)
            && var looked := Take(s.peers, Free(Subs(w, s.taskId)));
               && Free(Subs(r.world, s.taskId)) == Free(Subs(w, s.taskId)) - |looked|
               && forall peer :: Assigns(r.world, s.taskId, peer)
                                 <==> Assigns(w, s.taskId, peer) || peer in looked
  {
    hide EscrowSafety.Inv;
    hide Oracle.Sort;
    hide Oracle.Apply;
    var id := s.taskId;
    assert OracleSafety.TaskShape(w, id);
    FitsTaken(w, node, address, s);
    var t := w.shared.tasks[id];
    var taken := Oracle.Taken(t, OffersFor(node, address, id, s.peers));
    var assigns := Oracle.AssignAll(t, id, taken);
    SortOfSorted(assigns + [Oracle.AddManager]);
    ApplyAllAppend(env, w, id, address, assigns, [Oracle.AddManager]);
    AssignBatch(env, w, id, address, t, taken);
    var r := Oracle.ApplyAll(env, w, id, address, assigns);
    OracleSafety.AddManagerSteady(env, r.world, id, address);
    OracleSafety.ApplyOne(env, r.world, id, address, Oracle.AddManager);
    var w2 := Oracle.Apply(env, r.world, id, address, Oracle.AddManager).world;
    assert w2.shared.tasks[id].completeness == r.world.shared.tasks[id].completeness;
  }

  // ---------------------------------------------------------------- losing a worker

  /** `send_abord_proposal`, with the failure count the manager reads in the shared state. */
  function AbortProposal(address: Address, w: Oracle.World, id: Id, peer: PeerId): Oracle.Proposal
    requires id in w.shared.tasks
  {
    Oracle.Proposal(Some(address), Some(id),
                    Oracle.Failure(w.shared.tasks[id].nbFailures,
                                   Oracle.WorkerFailed(Some(Oracle.WorkerMessage(Some(peer), Some(Oracle.WorkerError.Aborted))))))
  }

  /** Aborting a worker that holds a replica is accepted, costs no failure, and frees its replica. */
  lemma AbortReleases(env: Oracle.Env, w: Oracle.World, address: Address, id: Id, peer: PeerId)
    requires OracleSafety.WorldOk(env.h, w) && Open(w, id) && Assigns(w, id, peer)
    ensures var r := Oracle.Propose(env, w, AbortProposal(address, w, id, peer));
            && r.Done? && OracleSafety.WorldOk(env.h, r.world)
            && Open(r.world, id) && !Assigns(r.world, id, peer)
            && r.world.shared.tasks[id].nbFailures == w.shared.tasks[id].nbFailures
            && r.world.ledger == w.ledger
  {
    hide EscrowSafety.Inv;
    hide Oracle.Sort;
    hide Oracle.Apply;
    var p := AbortProposal(address, w, id, peer);
    assert OracleSafety.TaskShape(w, id) && OracleSafety.CountOk(w, id);
    OracleSafety.ProposeOutcome(env, w, p);
    var t := w.shared.tasks[id];
    var nb := t.nbFailures;
    OracleSafety.FailureFacts(env, w, id, nb, p.kind.kind);
    var max := w.shared.jobs[t.jobId].maxFailures;
    var workers := Oracle.Released(t, max, Some(Some(peer))).value;
    SortFailure(nb, workers, []);
    assert [Oracle.SetNbFailures(nb)] + Oracle.UnassignAll(workers) + []
           == [Oracle.SetNbFailures(nb)] + Oracle.UnassignAll(workers);
    assert Oracle.UnassignAll(workers) + [Oracle.AddManager, Oracle.SetNbFailures(nb)] + []
           == Oracle.UnassignAll(workers) + [Oracle.AddManager, Oracle.SetNbFailures(nb)];
    ReleaseThenCount(env, w, id, address, workers, nb);
    WorkersOfAll(t.completeness.substates);
    assert peer in workers;
  }

  /**
   It frees the replica of that worker alone, unless the task has failed as often as its job allows: then
   everybody loses theirs, as in every task of a job that allows no failure.
   */
  lemma AbortExactly(env: Oracle.Env, w: Oracle.World, address: Address, id: Id, peer: PeerId)
    requires OracleSafety.WorldOk(env.h, w) && Open(w, id) && Assigns(w, id, peer)
    ensures w.shared.tasks[id].jobId in w.shared.jobs
    ensures var w' := Oracle.Propose(env, w, AbortProposal(address, w, id, peer)).world;
            var all := w.shared.tasks[id].nbFailures == w.shared.jobs[w.shared.tasks[id].jobId].maxFailures;
            && Open(w', id) && |Subs(w', id)| == |Subs(w, id)|
            && w'.shared.tasks[id].managers == w.shared.tasks[id].managers + [address]
            && forall i | 0 <= i < |Subs(w, id)| ::
                 Subs(w', id)[i] == if Subs(w, id)[i].Some? && (all || Subs(w, id)[i].value.worker == peer)
                                    then None else Subs(w, id)[i]
  {
    hide OracleSafety.WorldOk;
    hide Oracle.HandleFailure;
    hide Oracle.Propose;
    hide OracleEffects.ToldLost;
    var p := AbortProposal(address, w, id, peer);
    var t := w.shared.tasks[id];
    OracleSafety.TaskFacts(env.h, w, id);
    OracleSafety.OpenCounts(env.h, w, id);
    OracleEffects.AssignedIff(t.completeness, peer);
    OracleEffects.FailureAcceptedIff(env.h, w, id, t.nbFailures, p.kind.kind);
    AbortReleases(env, w, address, id, peer);
    OracleEffects.FailureEffect(env, w, p);
  }

  /** The replicas a scheduling proposal fills are for its workers, under this manager, paid to its address at a price of 1. */
  lemma ScheduledTerms(env: Oracle.Env, w: Oracle.World, node: PeerId, address: Address, s: Selection, i: nat)
    requires OracleSafety.WorldOk(env.h, w) && NoRepeat(s.peers) && Fits(w, s) && i < |Subs(w, s.taskId)|
    ensures var w' := Oracle.Propose(env, w, ProposalFor(node, address, s)).world;
            && Open(w', s.taskId) && |Subs(w', s.taskId)| == |Subs(w, s.taskId)|
            && w'.shared.tasks[s.taskId].managers == w.shared.tasks[s.taskId].managers + [address]
            && var before, after := Subs(w, s.taskId)[i], Subs(w', s.taskId)[i];
               after == before
               || (before.None? && after.Some? && after.value.worker in s.peers
                   && after.value == SharedState.Assigned.Assigned(env.now, after.value.worker, node, PaymentInfo(address, 1, 1)))
  {
    hide OracleSafety.WorldOk;
    hide Oracle.Propose;
    hide OracleEffects.Filled;
    var p := ProposalFor(node, address, s);
    ScheduledOutcome(env, w, node, address, s);
    OracleEffects.SchedulingEffect(env, w, p);
    OracleEffects.FilledLength(Subs(w, s.taskId), p.kind.offers, env.now);
    FilledTerms(Subs(w, s.taskId), node, address, s.taskId, s.peers, env.now, i);
  }

  lemma {:induction false} FilledTerms(subs: seq<Option<Assigned>>, node: PeerId, address: Address, id: Id, peers: seq<PeerId>,
                                       now: int, i: nat)
    requires i < |OracleEffects.Filled(subs, OffersFor(node, address, id, peers), now)| == |subs|
    ensures var after := OracleEffects.Filled(subs, OffersFor(node, address, id, peers), now)[i];
            after == subs[i]
            || (subs[i].None? && after.Some? && after.value.worker in peers
                && after.value == SharedState.Assigned.Assigned(now, after.value.worker, node, PaymentInfo(address, 1, 1)))
    decreases |subs|
  {
    var offers := OffersFor(node, address, id, peers);
    if subs[0].None? && peers != [] {
      assert offers[1..] == OffersFor(node, address, id, peers[1..]);
      OracleEffects.FilledLength(subs[1..], offers[1..], now);
      if i > 0 { FilledTerms(subs[1..], node, address, id, peers[1..], now, i - 1); }
    } else {
      assert peers == [] ==> offers == [];
      OracleEffects.FilledLength(subs[1..], offers, now);
      if i > 0 { FilledTerms(subs[1..], node, address, id, peers, now, i - 1); }
    }
  }

  lemma ReleaseThenCount(env: Oracle.Env, w: Oracle.World, id: Id, manager: Address, workers: seq<PeerId>, nb: uint64)
    requires Open(w, id) && Distinct(Subs(w, id)) && NoRepeat(workers)
    requires forall i | 0 <= i < |workers| :: Assigns(w, id, workers[i])
    ensures var changes := Oracle.UnassignAll(workers) + [Oracle.AddManager, Oracle.SetNbFailures(nb)];
            var r := Oracle.ApplyAll(env, w, id, manager, changes);
            && r.Done? && Open(r.world, id) && r.world.ledger == w.ledger
            && r.world.shared.tasks[id].nbFailures == nb
            && forall p | p in workers :: !Assigns(r.world, id, p)
  {
    hide Oracle.Apply;
    UnassignBatch(env, w, id, manager, workers);
    ApplyAllAppend(env, w, id, manager, Oracle.UnassignAll(workers), [Oracle.AddManager, Oracle.SetNbFailures(nb)]);
    var w1 := Oracle.ApplyAll(env, w, id, manager, Oracle.UnassignAll(workers)).world;
    OracleSafety.ApplyTwo(env, w1, id, manager, Oracle.AddManager, Oracle.SetNbFailures(nb));
    OracleSafety.AddManagerSteady(env, w1, id, manager);
    OracleSafety.SetNbSteady(env, Oracle.Apply(env, w1, id, manager, Oracle.AddManager).world, id, manager, nb);
  }

  // ---------------------------------------------------------------- in memory

  method ReserveChosen(table: Table, chosen: seq<PeerId>)
    requires table.Valid()
    modifies table.workers
    ensures table.Valid() && table.Data() == ReserveEach(old(table.Data()), chosen)
  {
    var i := 0;
    while i < |chosen|
      invariant 0 <= i <= |chosen| && table.Valid()
      invariant table.Data() == ReserveEach(old(table.Data()), chosen[..i])
    {
      assert chosen[..i + 1][..i] == chosen[..i];
      var reserved := table.ReserveSlot(chosen[i]);
      i := i + 1;
    }
    assert chosen[..i] == chosen;
  }

  /** `propose_assignements`: reserves slots in the table and returns the proposals sent. */
  method ProposeAssignements(table: Table, tasks: seq<(Id, nat)>, node: PeerId, address: Address)
    returns (events: seq<Oracle.Proposal>)
    requires table.Valid()
    modifies table.workers
    ensures table.Valid()
    ensures var plan := Schedule(old(table.Data()), tasks);
            table.Data() == plan.workers && events == ProposalsFor(node, address, plan.selections)
  {
    hide SortedPeers;
    hide ReserveEach;
    hide UnreserveAll;
    events := [];
    var peers := table.GetUnassignedWorkersSorted();
    if peers == [] { return; }
    table.UnreserveAllSlots();
    ghost var cleared := table.Data();
    var k := 0;
    while k < |tasks|
      invariant 0 <= k <= |tasks| && table.Valid()
      invariant table.Data() == OfferEach(cleared, tasks[..k]).workers
      invariant events == ProposalsFor(node, address, OfferEach(cleared, tasks[..k]).selections)
    {
      assert tasks[..k + 1][..k] == tasks[..k];
      ghost var before := table.Data();
      peers := table.GetUnassignedWorkersSorted();
      if peers != [] {
        var chosen := Take(peers, tasks[k].1);
        ReserveChosen(table, chosen);
        events := events + [ProposalFor(node, address, Selection(tasks[k].0, chosen))];
      }
      k := k + 1;
    }
    assert tasks[..k] == tasks;
  }
}

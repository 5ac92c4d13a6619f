/**
 The behaviour of a node as an object; every method does what its function in `Relationship` says.

 The record of a peer is behind a read-write lock, and the node's own guards decide whether it gets
 it: `reading` and `writing` hold the peers whose records are guarded. A guard that is dropped within
 the expression that takes it, with no other held, is not written out.
 */
module Behaviour {
  import opened Base
  import opened Relationship
  import Substreams

  class BalthBehaviour {
    const cfg: Config
    var role: Role
    var peers: map<PeerId, Peer>
    var events: seq<Internal>
    var nextQuery: nat
    var shutting: bool
    var reading: seq<PeerId>
    var writing: set<PeerId>

    function State(): Node
      reads this
    {
      Node(role, peers, events, nextQuery, shutting)
    }

    constructor (cfg: Config, nodeType: NodeType)
      ensures State() == Node(if nodeType.Manager? then Managing(map[]) else Working(None), map[], [], 0, false)
      ensures this.cfg == cfg && Unlocked()
    {
      this.cfg := cfg;
      role := if nodeType.Manager? then Managing(map[]) else Working(None);
      peers, events, nextQuery, shutting := map[], [], 0, false;
      reading, writing := [], {};
    }

    // -------------------------------------------------------------- locks

    /** No guard is held. */
    predicate Unlocked()
      reads this
    {
      reading == [] && writing == {}
    }

    /** Any number of read guards may be held at once; `!ok` is a wait for ever, or a panic. */
    method Read(p: PeerId) returns (ok: bool)
      modifies this`reading
      ensures ok == (p !in writing)
      ensures reading == if ok then old(reading) + [p] else old(reading)
    {
      ok := p !in writing;
      if ok { reading := reading + [p]; }
    }

    /** Drops the guard taken last. */
    method EndRead()
      requires reading != []
      modifies this`reading
      ensures reading == old(reading)[..|old(reading)| - 1]
    {
      reading := reading[..|reading| - 1];
    }

    /** A write guard excludes every other guard. */
    method Write(p: PeerId) returns (ok: bool)
      modifies this`writing
      ensures ok == (p !in old(writing) && p !in reading)
      ensures writing == if ok then old(writing) + {p} else old(writing)
    {
      ok := p !in writing && p !in reading;
      if ok { writing := writing + {p}; }
    }

    method EndWrite(p: PeerId)
      requires p in writing
      modifies this`writing
      ensures writing == old(writing) - {p}
    {
      writing := writing - {p};
    }

    method Inject(e: Internal)
      modifies this`events
      ensures State() == Queue(old(State()), e)
    {
      events := events + [e];
    }

    method GenerateEvent(out: Out)
      modifies this`events
      ensures State() == Say(old(State()), out)
    {
      Inject(Act(Generate(out)));
    }

    method NextQueryUniqueId() returns (id: nat)
      modifies this`nextQuery
      ensures id == old(nextQuery) && State() == Counted(old(State()))
    {
      id := nextQuery;
      nextQuery := nextQuery + 1;
    }

    method GetPeerOrInsert(p: PeerId) returns (peer: Peer)
      modifies this`peers
      ensures peer == PeerAt(old(State()), p) && State() == WithPeer(old(State()), p, peer)
    {
      if p !in peers { peers := peers[p := NEW_PEER]; }
      peer := peers[p];
    }

    /** `blocked` when a guard of the record is held already. */
    method SendToPeerOrDial(p: PeerId, msg: HandlerIn) returns (blocked: bool, action: Action)
      modifies this`peers, this`writing
      ensures writing == old(writing)
      ensures blocked == (!shutting && (p in reading || p in writing))
      ensures !blocked ==> (State(), action) == SendOrDial(old(State()), p, msg)
      ensures blocked ==> State() == WithPeer(old(State()), p, PeerAt(old(State()), p))
    {
      blocked, action := false, Generate(MsgDropped(p, msg));
      if shutting { return; }
      var peer := GetPeerOrInsert(p);
      var ok := Write(p);
      if !ok { return true, action; }
      if peer.connected {
        action := Notify(p, msg);
      } else {
        var waiting := peer.(pending := peer.pending + [msg]);
        peers := peers[p := waiting];
        action := Dial(p);
        assert peers == old(peers)[p := waiting];
      }
      EndWrite(p);
      assert writing == old(writing);
    }

    method InjectSendToPeerOrDial(p: PeerId, msg: HandlerIn) returns (blocked: bool)
      modifies this`peers, this`events, this`writing
      ensures writing == old(writing)
      ensures blocked == (!shutting && (p in reading || p in writing))
      ensures !blocked ==> State() == QueueSend(old(State()), p, msg)
      ensures blocked ==> State() == WithPeer(old(State()), p, PeerAt(old(State()), p))
    {
      var action: Action;
      blocked, action := SendToPeerOrDial(p, msg);
      if !blocked { Inject(Act(action)); }
    }

    /** What kind of node we are when a relationship with `p` was broken. */
    method BreakRelationship(p: PeerId) returns (kind: Option<NodeType>)
      modifies this`role
      ensures kind == if Holds(old(role), p) then Some(TypeOf(old(role))) else None
      ensures role == Broken(old(role), p)
    {
      match role
      case Working(manager) =>
        if manager.Some? && manager.value.0 == p {
          role := Working(None);
          return Some(Substreams.Worker);
        }
        return None;
      case Managing(workers) =>
        if p in workers {
          role := Managing(workers - {p});
          return Some(Substreams.Manager);
        }
        return None;
    }

    // -------------------------------------------------------------- messages of a peer

    /** What a method that handles an event must leave and return; no guard outlives it unless it never ends. */
    predicate Reacted(outcome: Outcome, r: Reaction)
      reads this
    {
      State() == r.node && outcome == r.outcome && (outcome.Stopped? || Unlocked())
    }

    method NodeTypeAnswer(p: PeerId, t: NodeType) returns (outcome: Outcome)
      requires Unlocked()
      modifies this
      ensures Reacted(outcome, OnNodeTypeAnswer(cfg, old(State()), p, t))
    {
      var peer := PeerAt(State(), p);
      var ok := Write(p);
      assert ok;
      outcome := Pending;
      if peer.nodeType.Some? {
        var previous := peer.nodeType.value;
        if previous != t { outcome := Ready(Generate(PeerGivesDifferentNodeType(p, previous, t))); }
      } else {
        var request := t.Manager? && role.Working? && role.manager.None? && cfg.authorized(p, peer.addrs);
        peers := peers[p := peer.(nodeType := Some(t))];
        GenerateEvent(PeerHasNewType(p, t));
        if request {
          var query := NextQueryUniqueId();
          outcome := Ready(Notify(p, HandlerIn.ManagerRequest(cfg.specs, query)));
        }
      }
      EndWrite(p);
    }

    method NodeTypeRequest(p: PeerId, t: NodeType, requestId: nat) returns (outcome: Outcome)
      requires Unlocked()
      modifies this
      ensures Reacted(outcome, OnNodeTypeRequest(cfg, old(State()), p, t, requestId))
    {
      var answer := NodeTypeAnswer(p, t);
      if answer.Ready? { Inject(Act(answer.action)); }
      outcome := Ready(Notify(p, HandlerIn.NodeTypeAnswer(TypeOf(role), requestId)));
    }

    method NotMine(p: PeerId) returns (outcome: Outcome)
      requires Unlocked()
      modifies this
      ensures Reacted(outcome, OnNotMine(old(State()), p))
    {
      var kind := BreakRelationship(p);
      if kind.None? { return Pending; }
      outcome := Ready(Generate(if kind.value.Worker? then Out.ManagerBye(p) else WorkerBye(p)));
    }

    method ManagerRequest(p: PeerId, specs: Specs, requestId: nat, now: int) returns (outcome: Outcome)
      requires Unlocked()
      modifies this
      ensures Reacted(outcome, OnManagerRequest(old(State()), p, specs, requestId, now))
    {
      if role.Working? {
        GenerateEvent(MsgForIncorrectNodeType(p, Substreams.Manager, HandlerOut.ManagerRequest(specs, 0)));
        return Ready(Notify(p, HandlerIn.ManagerAnswer(false, requestId)));
      }
      var peer := PeerAt(State(), p);
      var ok := Write(p);
      assert ok;
      if peer.nodeType == Some(Substreams.Worker) {
        peers := peers[p := peer.(specs := Some(specs))];
        role := Managing(role.workers[p := Link(now, now)]);
        GenerateEvent(WorkerNew(p, specs));
        EndWrite(p);
        return Ready(Notify(p, HandlerIn.ManagerAnswer(true, requestId)));
      }
      // the refusal names the type of the peer, and reads it under the guard that writes it
      ok := Read(p);
      assert !ok;
      outcome := Stopped;
    }

    /** The ping of `ManagerAnswer` to our own manager, whose record it still reads. */
    method PingUnderGuard(p: PeerId) returns (outcome: Outcome)
      requires reading == [p] && writing == {} && p in peers
      modifies this
      ensures outcome == if old(shutting) then Pending else Stopped
      ensures var n := Counted(old(State()));
              State() == if old(shutting) then QueueSend(n, p, HandlerIn.ManagerPing(old(nextQuery))) else n
      ensures outcome.Pending? ==> Unlocked()
    {
      hide QueueSend;
      var query := NextQueryUniqueId();
      assert WithPeer(State(), p, PeerAt(State(), p)) == State();
      var blocked := InjectSendToPeerOrDial(p, HandlerIn.ManagerPing(query));
      if blocked { return Stopped; }
      EndRead();
      outcome := Pending;
    }

    /** The arms of `ManagerAnswer` for a worker, but the one of its own manager. */
    method AnswerAsWorker(p: PeerId, accepted: bool, user: int, now: int) returns (out: Out, bye: bool)
      requires Unlocked() && p in peers && role.Working?
      requires peers[p].nodeType == Some(Substreams.Manager) ==> !Holds(role, p)
      modifies this`role, this`reading
      ensures Unlocked()
      ensures OnManagerAnswer(cfg, old(State()), p, accepted, user, now) == SayAndBye(State(), p, out, bye)
    {
      hide OnManagerAnswer;
      hide SayAndBye;
      var peer := peers[p];
      var ok := Read(p);
      assert ok;
      bye := accepted;
      if peer.nodeType != Some(Substreams.Manager) {
        ok := Read(p);
        assert ok;
        out := MsgFromIncorrectNodeType(p, peer.nodeType, Substreams.Manager, HandlerOut.ManagerAnswer(accepted, user));
        EndRead();
      } else if role.manager.Some? {
        out := ManagerAlreadyHasOne(p);
      } else if !accepted {
        out := ManagerRefused(p);
      } else if cfg.authorized(p, peer.addrs) {
        role := Working(Some((p, Link(now, now))));
        out, bye := ManagerNew(p), false;
      } else {
        out, bye := ManagerUnauthorized(p), true;
      }
      EndRead();
      WorkerArms(cfg, old(State()), p, accepted, user, now, role, out, bye);
    }

    method ManagerAnswer(p: PeerId, accepted: bool, user: int, now: int) returns (outcome: Outcome)
      requires Unlocked() && p in peers
      modifies this
      ensures Reacted(outcome, OnManagerAnswer(cfg, old(State()), p, accepted, user, now))
    {
      hide QueueSend;
      var out, bye := MsgForIncorrectNodeType(p, Substreams.Worker, HandlerOut.ManagerAnswer(accepted, user)), accepted;
      if role.Working? {
        if peers[p].nodeType == Some(Substreams.Manager) && Holds(role, p) {
          var ok := Read(p);
          assert ok && role.manager.value.0 == p;
          outcome := PingUnderGuard(p);
          return;
        }
        out, bye := AnswerAsWorker(p, accepted, user, now);
      }
      if !bye { return Ready(Generate(out)); }
      GenerateEvent(out);
      var query := NextQueryUniqueId();
      outcome := Ready(Notify(p, HandlerIn.ManagerBye(query)));
    }

    method ManagerBye(p: PeerId, requestId: nat) returns (outcome: Outcome)
      requires Unlocked()
      modifies this
      ensures Reacted(outcome, OnManagerBye(old(State()), p, requestId))
    {
      var kind := BreakRelationship(p);
      if kind.Some? {
        GenerateEvent(if kind.value.Worker? then Out.ManagerBye(p) else WorkerBye(p));
      }
      outcome := Ready(Notify(p, HandlerIn.Ack(requestId)));
    }

    method ManagerPong(p: PeerId, user: int, now: int) returns (outcome: Outcome)
      requires Unlocked()
      modifies this
      ensures Reacted(outcome, OnManagerPong(old(State()), p, user, now))
    {
      match role
      case Managing(workers) =>
        if p in workers {
          role := Managing(workers[p := Link(workers[p].lastPing, now)]);
          return Ready(Generate(WorkerPong(p)));
        }
        return Ready(Generate(Out.NotMine(p, HandlerOut.ManagerPong(user))));
      case Working(manager) =>
        if manager.Some? && manager.value.0 == p {
          role := Working(Some((p, Link(manager.value.1.lastPing, now))));
          return Ready(Generate(Out.ManagerPong(p)));
        }
        return Ready(Generate(Out.NotMine(p, HandlerOut.ManagerPong(user))));
    }

    /** `needs_relationship_with`, with the five requests that need one. */
    method NeedsRelationship(p: PeerId, event: HandlerOut) returns (outcome: Outcome)
      requires Unlocked()
      requires event.ManagerPing? || event.TasksExecute? || event.TasksPing? || event.TasksAbord? || event.TaskStatus?
      modifies this
      ensures Reacted(outcome, OnRelated(old(State()), p, event))
    {
      var id := event.requestId;
      var related := Holds(role, p);
      match event {
      case TasksExecute(tasks, _) =>
        GenerateEvent(if related then TasksExecute(tasks) else Out.NotMine(p, HandlerOut.TasksExecute([], 0)));
      case TasksPing(ids, _) =>
        if related { return Ready(Generate(TasksPing(ids, id))); }
        GenerateEvent(Out.NotMine(p, HandlerOut.TasksPing([], 0)));
      case TasksAbord(ids, _) =>
        GenerateEvent(if related then TasksAbord(ids) else Out.NotMine(p, HandlerOut.TasksAbord([], 0)));
      case TaskStatus(taskId, status, _) =>
        GenerateEvent(if related then TaskStatus(p, taskId, status) else Out.NotMine(p, HandlerOut.TaskStatus(taskId, status, 0)));
      case ManagerPing(_) =>
        if related { return Ready(Notify(p, HandlerIn.ManagerPong(id))); }
        GenerateEvent(Out.NotMine(p, HandlerOut.ManagerPing(0)));
      }
      outcome := Ready(Notify(p, if related then HandlerIn.Ack(id) else HandlerIn.NotMine(id)));
    }

    method HandlerEvent(p: PeerId, event: HandlerOut, now: int) returns (outcome: Outcome)
      requires Unlocked()
      modifies this
      ensures Reacted(outcome, OnHandler(cfg, old(State()), p, event, now))
    {
      hide OnNodeTypeAnswer;
      hide OnNodeTypeRequest;
      hide OnManagerAnswer;
      hide OnManagerRequest;
      hide OnManagerBye;
      hide OnManagerPong;
      hide OnNotMine;
      hide OnRelated;
      var peer := GetPeerOrInsert(p);
      match event
      case NodeTypeRequest(t, id) => outcome := NodeTypeRequest(p, t, id);
      case NodeTypeAnswer(t, _) => outcome := NodeTypeAnswer(p, t);
      case NotMine(_) => outcome := NotMine(p);
      case ManagerRequest(specs, id) => outcome := ManagerRequest(p, specs, id, now);
      case ManagerAnswer(accepted, user) => outcome := ManagerAnswer(p, accepted, user, now);
      case ManagerBye(id) => outcome := ManagerBye(p, id);
      case ManagerPong(user) => outcome := ManagerPong(p, user, now);
      case TasksPong(statuses, _) =>
        outcome := Ready(Generate(if Holds(role, p) then TasksPong(p, statuses) else Out.NotMine(p, event)));
      case QueryError(_, _) =>
        GenerateEvent(FromPeer(p, event));
        outcome := Pending;
      case _ => outcome := NeedsRelationship(p, event);
    }

    // -------------------------------------------------------------- poll

    method OnEvent(e: Internal, now: int) returns (outcome: Outcome)
      requires Unlocked()
      modifies this
      ensures Reacted(outcome, OnInternal(cfg, old(State()), e, now))
    {
      hide OnHandler;
      match e
      case Act(a) => outcome := Ready(a);
      case Mdns(p, address) =>
        var peer := GetPeerOrInsert(p);
        var ok := Write(p);
        assert ok;
        peers := peers[p := peer.(addrs := peer.addrs + {address}, dialed := true)];
        EndWrite(p);
        outcome := if peer.dialed then Pending else Ready(Dial(p));
      case SendMessage(p, msg) =>
        var blocked, sent := SendToPeerOrDial(p, msg);
        assert !blocked;
        outcome := Ready(sent);
      case FromHandler(p, event) => outcome := HandlerEvent(p, event, now);
      case AskNodeType(p) =>
        var peer := GetPeerOrInsert(p);
        if peer.nodeType.Some? { return Pending; }
        var query := NextQueryUniqueId();
        outcome := Ready(Notify(p, HandlerIn.NodeTypeRequest(TypeOf(role), query)));
    }

    /** Takes the oldest events one by one until one gives something to return. */
    method PollEvents(now: int) returns (outcome: Outcome)
      requires Unlocked()
      modifies this
      ensures Reacted(outcome, Drain(cfg, old(State()), now))
    {
      hide OnInternal;
      while events != []
        invariant Unlocked() && Drain(cfg, State(), now) == Drain(cfg, old(State()), now)
        decreases Waiting(events)
      {
        NextLowers(cfg, State(), now);
        var e := events[0];
        events := events[1..];
        outcome := OnEvent(e, now);
        if !outcome.Pending? { return outcome; }
      }
      outcome := Pending;
    }

    method HandleVerdict(p: PeerId, verdict: Verdict) returns (outcome: Outcome)
      requires Unlocked()
      modifies this
      ensures Reacted(outcome, OnVerdict(old(State()), p, verdict)) && !outcome.Ready?
    {
      outcome := Pending;
      match verdict
      case Continuing =>
      case MustPing =>
        var query := NextQueryUniqueId();
        var blocked := InjectSendToPeerOrDial(p, HandlerIn.ManagerPing(query));
        assert !blocked;
      case TimedOut =>
        var query := NextQueryUniqueId();
        var blocked := InjectSendToPeerOrDial(p, HandlerIn.ManagerBye(query));
        assert !blocked;
        var kind := BreakRelationship(p);
        if kind.None? { return Stopped; }
        GenerateEvent(if kind.value.Worker? then ManagerTimedOut(p) else WorkerTimedOut(p));
    }

    /** The pings and time-outs of `poll`; `order` is the order in which the map of workers is iterated. */
    method PollTimers(order: seq<PeerId>, now: int) returns (outcome: Outcome)
      requires Unlocked()
      requires role.Managing? ==> Iterates(order, role.workers)
      modifies this
      ensures Reacted(outcome, Timers(cfg, old(State()), order, now)) && outcome.Pending?
    {
      hide OnVerdict;
      TimersGo(cfg, State(), order, now);
      outcome := Pending;
      if shutting { return; }
      match role
      case Working(manager) =>
        if manager.Some? {
          var (p, link) := manager.value;
          role := Working(Some((p, Checked(cfg, link, now))));
          outcome := HandleVerdict(p, Check(cfg, link, now));
        }
      case Managing(workers) =>
        var verdicts := CheckWorkers(order, now);
        var i := 0;
        ghost var before := State();
        while i < |verdicts| && outcome.Pending?
          invariant 0 <= i <= |verdicts|
          invariant Reacted(outcome, OnVerdicts(before, verdicts[..i]))
          invariant outcome.Stopped? ==> OnVerdicts(before, verdicts) == OnVerdicts(before, verdicts[..i])
          invariant outcome.Pending? || outcome.Stopped?
        {
          assert verdicts[..i + 1][..i] == verdicts[..i];
          outcome := HandleVerdict(verdicts[i].0, verdicts[i].1);
          i := i + 1;
          if outcome.Stopped? { VerdictsStop(before, verdicts, i); }
        }
        assert verdicts[..|verdicts|] == verdicts;
    }

    /** Checks every worker, noting the time of the pings to be sent. */
    method CheckWorkers(order: seq<PeerId>, now: int) returns (verdicts: seq<(PeerId, Verdict)>)
      requires role.Managing? && Iterates(order, role.workers)
      modifies this`role
      ensures verdicts == Verdicts(cfg, old(role).workers, order, now)
      ensures role == Managing(map p | p in old(role).workers :: Checked(cfg, old(role).workers[p], now))
    {
      hide Check;
      var before := role.workers;
      var workers := before;
      verdicts := [];
      var i := 0;
      while i < |order|
        invariant 0 <= i <= |order|
        invariant verdicts == Verdicts(cfg, before, order[..i], now)
        invariant workers.Keys == before.Keys
        invariant forall k | 0 <= k < |order| ::
          workers[order[k]] == if k < i then Checked(cfg, before[order[k]], now) else before[order[k]]
      {
        var p := order[i];
        assert order[..i + 1][..i] == order[..i];
        var verdict := Check(cfg, before[p], now);
        if verdict.MustPing? { workers := workers[p := before[p].(lastPing := now)]; }
        if !verdict.Continuing? { verdicts := verdicts + [(p, verdict)]; }
        i := i + 1;
      }
      assert order[..i] == order;
      forall p | p in before ensures workers[p] == Checked(cfg, before[p], now) {
        var k :| 0 <= k < |order| && order[k] == p;
      }
      assert workers == map p | p in before :: Checked(cfg, before[p], now);
      role := Managing(workers);
    }

    method Poll(order: seq<PeerId>, now: int) returns (outcome: Outcome)
      requires Unlocked()
      requires role.Managing? ==> Iterates(order, role.workers)
      modifies this
      ensures Reacted(outcome, Polled(cfg, old(State()), order, now))
    {
      outcome := PollTimers(order, now);
      outcome := PollEvents(now);
    }

    // -------------------------------------------------------------- orders and connections

    method SendByes(to: seq<PeerId>)
      requires Unlocked()
      modifies this
      ensures Unlocked()
      ensures State() == ByeEach(old(State()), to)
    {
      hide QueueSend;
      var i := 0;
      while i < |to|
        invariant 0 <= i <= |to|
        invariant Unlocked() && State() == ByeEach(old(State()), to[..i])
      {
        assert to[..i + 1][..i] == to[..i];
        var query := NextQueryUniqueId();
        var blocked := InjectSendToPeerOrDial(to[i], HandlerIn.ManagerBye(query));
        assert !blocked;
        i := i + 1;
      }
      assert to[..i] == to;
    }

    method HandleEventIn(o: Order, order: seq<PeerId>)
      requires Unlocked()
      requires role.Managing? ==> Iterates(order, role.workers)
      modifies this
      ensures Unlocked()
      ensures State() == OnOrder(old(State()), o, order)
    {
      hide ByeEach;
      if o.Bye? {
        var to := order;
        if role.Working? {
          to := if role.manager.Some? then [role.manager.value.0] else [];
          role := Working(None);
        }
        SendByes(to);
        shutting := true;
        return;
      }
      var action := Generate(Pong);
      if (o.AnswerTasks? || o.Advertise?) && !(role.Working? && role.manager.Some?) {
        action := Generate(NoManager(o));
      } else {
        action := Asked(o);
      }
      if action.Notify? { action := Sendable(State(), action.peer, action.msg); }
      Inject(Act(action));
    }

    /** What an order asks for, before the check that we are not shutting down. */
    method Asked(o: Order) returns (action: Action)
      requires Unlocked()
      requires !o.Bye?
      requires o.AnswerTasks? || o.Advertise? ==> role.Working? && role.manager.Some?
      modifies this
      ensures Unlocked()
      ensures OnOrder(old(State()), o, []) == Queue(State(), Act(Filtered(State(), action)))
    {
      var blocked := false;
      match o
      case Ping => action := Generate(Pong);
      case ToHandler(p, msg) => action := Notify(p, msg);
      case Execute(p, tasks) =>
        var query := NextQueryUniqueId();
        blocked, action := SendToPeerOrDial(p, HandlerIn.TasksExecute(tasks, query));
      case AskTasks(p, ids) =>
        var query := NextQueryUniqueId();
        blocked, action := SendToPeerOrDial(p, HandlerIn.TasksPing(ids, query));
      case AnswerTasks(statuses, id) => action := Notify(role.manager.value.0, HandlerIn.TasksPong(statuses, id));
      case Advertise(taskId, status) =>
        var query := NextQueryUniqueId();
        blocked, action := SendToPeerOrDial(role.manager.value.0, HandlerIn.TaskStatus(taskId, status, query));
    }

    method InjectConnected(p: PeerId)
      requires Unlocked()
      modifies this
      ensures Unlocked() && State() == OnConnected(old(State()), p)
    {
      hide SendEach;
      var peer := GetPeerOrInsert(p);
      var ok := Write(p);
      assert ok;
      if peer.nodeType.None? { Inject(AskNodeType(p)); }
      peers := peers[p := peer.(connected := true, pending := [])];
      assert peers == old(peers)[p := peer.(connected := true, pending := [])];
      ghost var before := State();
      SendNone(before, p, peer.pending);
      var i := 0;
      while i < |peer.pending|
        invariant 0 <= i <= |peer.pending|
        invariant State() == SendEach(before, p, peer.pending[..i])
        invariant reading == [] && writing == {p}
      {
        SendMore(before, p, peer.pending, i);
        Inject(SendMessage(p, peer.pending[i]));
        i := i + 1;
      }
      assert peer.pending[..i] == peer.pending;
      GenerateEvent(PeerConnected(p));
      EndWrite(p);
    }

    method InjectDisconnected(p: PeerId) returns (outcome: Outcome)
      requires Unlocked()
      modifies this
      ensures Reacted(outcome, OnDisconnected(old(State()), p))
    {
      if p !in peers { return Stopped; }
      peers := peers[p := peers[p].(connected := false)];
      GenerateEvent(PeerDisconnected(p));
      outcome := Pending;
    }
  }

  lemma SendNone(n: Node, p: PeerId, msgs: seq<HandlerIn>)
    ensures SendEach(n, p, msgs[..0]) == n
  {
    assert SendEach(n, p, msgs[..0]).events == n.events;
  }

  lemma SendMore(n: Node, p: PeerId, msgs: seq<HandlerIn>, i: nat)
    requires i < |msgs|
    ensures SendEach(n, p, msgs[..i + 1]) == Queue(SendEach(n, p, msgs[..i]), SendMessage(p, msgs[i]))
  {
    assert SendEach(n, p, msgs[..i + 1]).events == SendEach(n, p, msgs[..i]).events + [SendMessage(p, msgs[i])];
  }

  /** The arms of `ManagerAnswer` for a worker, by what they make of its role and say. */
  lemma WorkerArms(cfg: Config, n: Node, p: PeerId, accepted: bool, user: int, now: int, role: Role, out: Out, bye: bool)
    requires n.role.Working? && p in n.peers
    requires n.peers[p].nodeType == Some(Substreams.Manager) ==> !Holds(n.role, p)
    requires var peer := n.peers[p];
             var manages := peer.nodeType == Some(Substreams.Manager);
             var answer := HandlerOut.ManagerAnswer(accepted, user);
             var takes := manages && n.role.manager.None? && accepted && cfg.authorized(p, peer.addrs);
             && role == (if takes then Working(Some((p, Link(now, now)))) else n.role)
             && bye == (accepted && !takes)
             && out == if !manages then MsgFromIncorrectNodeType(p, peer.nodeType, Substreams.Manager, answer)
                       else if n.role.manager.Some? then ManagerAlreadyHasOne(p)
                       else if !accepted then ManagerRefused(p)
                       else if takes then ManagerNew(p)
                       else ManagerUnauthorized(p)
    ensures OnManagerAnswer(cfg, n, p, accepted, user, now) == SayAndBye(n.(role := role), p, out, bye)
  {
    assert n.(role := n.role) == n;
    assert PeerAt(n, p) == n.peers[p];
  }

  lemma {:induction false} VerdictsStop(n: Node, verdicts: seq<(PeerId, Verdict)>, i: nat)
    requires i <= |verdicts| && !OnVerdicts(n, verdicts[..i]).outcome.Pending?
    ensures OnVerdicts(n, verdicts) == OnVerdicts(n, verdicts[..i])
  {
    hide OnVerdict;
    if i == |verdicts| {
      assert verdicts[..i] == verdicts;
    } else {
      assert verdicts[..|verdicts| - 1][..i] == verdicts[..i];
      VerdictsStop(n, verdicts[..|verdicts| - 1], i);
    }
  }
}

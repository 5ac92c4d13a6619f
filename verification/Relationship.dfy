/**
 The relationship between workers and managers: what a node does with messages of its peers, with
 time passing and with orders of its user. One `Node` is the state of `BalthBehaviour`; its queue
 is first in, first out, the oldest event first.
 */
module Relationship {
  import opened Base
  import SharedState
  import Substreams
  import Handler

  type PeerId = SharedState.PeerId
  type NodeType = Substreams.NodeType
  type Specs = Substreams.Specs
  type HandlerIn = Handler.EventIn
  type HandlerOut = Substreams.EventOut

  /** Events of the behaviour for the node. */
  datatype Out =
    | PeerHasNewType(peer: PeerId, nodeType: NodeType)
    | PeerConnected(peer: PeerId)
    | PeerDisconnected(peer: PeerId)
    | Pong
    | NotMine(peer: PeerId, event: HandlerOut)
    | FromPeer(peer: PeerId, event: HandlerOut)
    | WorkerNew(peer: PeerId, specs: Specs)
    | WorkerPong(peer: PeerId)
    | WorkerTimedOut(peer: PeerId)
    | WorkerBye(peer: PeerId)
    | ManagerNew(peer: PeerId)
    | ManagerRefused(peer: PeerId)
    | ManagerPong(peer: PeerId)
    | ManagerTimedOut(peer: PeerId)
    | ManagerBye(peer: PeerId)
    | ManagerUnauthorized(peer: PeerId)
    | ManagerAlreadyHasOne(peer: PeerId)
    | MsgForIncorrectNodeType(peer: PeerId, expected: NodeType, event: HandlerOut)
    | MsgFromIncorrectNodeType(peer: PeerId, known: Option<NodeType>, expected: NodeType, event: HandlerOut)
    | PeerGivesDifferentNodeType(peer: PeerId, previous: NodeType, nodeType: NodeType)
    | TasksExecute(tasks: seq<Bytes>)
    | TasksPing(taskIds: seq<Id>, requestId: nat)
    | TasksPong(peer: PeerId, statuses: seq<(Id, Bytes)>)
    | TasksAbord(taskIds: seq<Id>)
    | TaskStatus(peer: PeerId, taskId: Id, status: Bytes)
    | NoManager(order: Order)
    | MsgDropped(peer: PeerId, msg: HandlerIn)

  /** Orders of the node for the behaviour. */
  datatype Order =
    | Ping
    | ToHandler(peer: PeerId, msg: HandlerIn)
    | Execute(peer: PeerId, tasks: seq<Bytes>)
    | AskTasks(peer: PeerId, taskIds: seq<Id>)
    | AnswerTasks(statuses: seq<(Id, Bytes)>, requestId: nat)
    | Advertise(taskId: Id, status: Bytes)
    | Bye

  datatype Action = Generate(out: Out) | Notify(peer: PeerId, msg: HandlerIn) | Dial(peer: PeerId)

  datatype Internal =
    | Act(action: Action)
    | Mdns(peer: PeerId, address: int)
    | SendMessage(peer: PeerId, msg: HandlerIn)
    | FromHandler(peer: PeerId, event: HandlerOut)
    | AskNodeType(peer: PeerId)

  datatype Peer = Peer(
    connected: bool,
    dialed: bool,
    addrs: set<int>,
    nodeType: Option<NodeType>,
    specs: Option<Specs>,
    pending: seq<HandlerIn>)

  const NEW_PEER := Peer(false, false, {}, None, None, [])

  /** Times of the last ping sent and of the last pong received. */
  datatype Link = Link(lastPing: int, lastPong: int)

  datatype Role = Managing(workers: map<PeerId, Link>) | Working(manager: Option<(PeerId, Link)>)

  /** What never changes: intervals, the specs of a worker, and which managers it accepts. */
  datatype Config = Config(interval: nat, timeout: nat, specs: Specs, authorized: (PeerId, set<int>) -> bool)

  datatype Node = Node(role: Role, peers: map<PeerId, Peer>, events: seq<Internal>, nextQuery: nat, shutting: bool)

  /**
   What handling an event comes to: nothing to return, an action to return, or the end of the node,
   which panics or waits for ever for a lock it holds itself.
   */
  datatype Outcome = Pending | Ready(action: Action) | Stopped

  datatype Reaction = Reaction(node: Node, outcome: Outcome)

  function TypeOf(role: Role): NodeType {
    if role.Managing? then Substreams.Manager else Substreams.Worker
  }

  function PeerAt(n: Node, p: PeerId): Peer {
    if p in n.peers then n.peers[p] else NEW_PEER
  }

  function WithPeer(n: Node, p: PeerId, peer: Peer): Node {
    n.(peers := n.peers[p := peer])
  }

  function Queue(n: Node, e: Internal): Node {
    n.(events := n.events + [e])
  }

  function Say(n: Node, out: Out): Node {
    Queue(n, Act(Generate(out)))
  }

  /** `is_in_relationship_with`. */
  predicate Holds(role: Role, p: PeerId) {
    match role
    case Managing(workers) => p in workers
    case Working(manager) => manager.Some? && manager.value.0 == p
  }

  /** `break_worker_manager_relationship`. */
  function Broken(role: Role, p: PeerId): Role {
    if !Holds(role, p) then role
    else match role
      case Managing(workers) => Managing(workers - {p})
      case Working(_) => Working(None)
  }

  /** `send_to_peer_or_dial`. */
  function SendOrDial(n: Node, p: PeerId, msg: HandlerIn): (Node, Action) {
    if n.shutting then (n, Generate(MsgDropped(p, msg)))
    else
      var peer := PeerAt(n, p);
      if peer.connected then (WithPeer(n, p, peer), Notify(p, msg))
      else (WithPeer(n, p, peer.(pending := peer.pending + [msg])), Dial(p))
  }

  /** `inject_send_to_peer_or_dial_event`. */
  function QueueSend(n: Node, p: PeerId, msg: HandlerIn): Node {
    var sent := SendOrDial(n, p, msg);
    Queue(sent.0, Act(sent.1))
  }

  /** `next_query_unique_id`, the number itself being `n.nextQuery`. */
  function Counted(n: Node): Node {
    n.(nextQuery := n.nextQuery + 1)
  }

  // ---------------------------------------------------------------- messages of a peer

  function OnNodeTypeAnswer(cfg: Config, n: Node, p: PeerId, t: NodeType): Reaction {
    var peer := PeerAt(n, p);
    if peer.nodeType.Some? then
      Reaction(n, if peer.nodeType.value != t then Ready(Generate(PeerGivesDifferentNodeType(p, peer.nodeType.value, t)))
                  else Pending)
    else
      var told := Say(WithPeer(n, p, peer.(nodeType := Some(t))), PeerHasNewType(p, t));
      if t.Manager? && n.role.Working? && n.role.manager.None? && cfg.authorized(p, peer.addrs) then
        Reaction(Counted(told), Ready(Notify(p, HandlerIn.ManagerRequest(cfg.specs, n.nextQuery))))
      else Reaction(told, Pending)
  }

  function OnNodeTypeRequest(cfg: Config, n: Node, p: PeerId, t: NodeType, requestId: nat): Reaction {
    var r := OnNodeTypeAnswer(cfg, n, p, t);
    var n' := if r.outcome.Ready? then Queue(r.node, Act(r.outcome.action)) else r.node;
    Reaction(n', Ready(Notify(p, HandlerIn.NodeTypeAnswer(TypeOf(n.role), requestId))))
  }

  /** The event does not go through the queue: `poll` returns it at once. */
  function OnNotMine(n: Node, p: PeerId): Reaction {
    if !Holds(n.role, p) then Reaction(n, Pending)
    else
      Reaction(n.(role := Broken(n.role, p)),
               Ready(Generate(if n.role.Working? then ManagerBye(p) else WorkerBye(p))))
  }

  /**
   A manager asked by a peer it does not know as a worker reads the record of the peer while it still
   holds the guard it writes it with.
   */
  function OnManagerRequest(n: Node, p: PeerId, specs: Specs, requestId: nat, now: int): Reaction {
    var refused := Ready(Notify(p, HandlerIn.ManagerAnswer(false, requestId)));
    var request := HandlerOut.ManagerRequest(specs, 0);
    var peer := PeerAt(n, p);
    match n.role
    case Working(_) => Reaction(Say(n, MsgForIncorrectNodeType(p, Substreams.Manager, request)), refused)
    case Managing(workers) =>
      if peer.nodeType == Some(Substreams.Worker) then
        var n' := WithPeer(n, p, peer.(specs := Some(specs))).(role := Managing(workers[p := Link(now, now)]));
        Reaction(Say(n', WorkerNew(p, specs)), Ready(Notify(p, HandlerIn.ManagerAnswer(true, requestId))))
      else Reaction(n, Stopped)
  }

  /** Ends `manager_answer`: an event, and a `ManagerBye` when the peer wrongly believes it manages us. */
  function SayAndBye(n: Node, p: PeerId, out: Out, bye: bool): Reaction {
    if bye then Reaction(Counted(Say(n, out)), Ready(Notify(p, HandlerIn.ManagerBye(n.nextQuery))))
    else Reaction(n, Ready(Generate(out)))
  }

  /**
   A worker answered by its own manager sends it a ping, and so writes the record of the peer while it
   still holds the guard it reads it with; only when shutting down it drops the ping instead.
   */
  function OnManagerAnswer(cfg: Config, n: Node, p: PeerId, accepted: bool, user: int, now: int): Reaction {
    var answer := HandlerOut.ManagerAnswer(accepted, user);
    var peer := PeerAt(n, p);
    match n.role
    case Managing(_) => SayAndBye(n, p, MsgForIncorrectNodeType(p, Substreams.Worker, answer), accepted)
    case Working(manager) =>
      if peer.nodeType != Some(Substreams.Manager) then
        SayAndBye(n, p, MsgFromIncorrectNodeType(p, peer.nodeType, Substreams.Manager, answer), accepted)
      else if manager.Some? then
        if manager.value.0 == p && n.shutting then
          Reaction(QueueSend(Counted(n), p, HandlerIn.ManagerPing(n.nextQuery)), Pending)
        else if manager.value.0 == p then Reaction(Counted(n), Stopped)
        else SayAndBye(n, p, ManagerAlreadyHasOne(p), accepted)
      else if !accepted then SayAndBye(n, p, ManagerRefused(p), false)
      else if cfg.authorized(p, peer.addrs) then
        Reaction(n.(role := Working(Some((p, Link(now, now))))), Ready(Generate(ManagerNew(p))))
      else SayAndBye(n, p, ManagerUnauthorized(p), true)
  }

  function OnManagerBye(n: Node, p: PeerId, requestId: nat): Reaction {
    var n' := if !Holds(n.role, p) then n
              else Say(n.(role := Broken(n.role, p)), if n.role.Working? then ManagerBye(p) else WorkerBye(p));
    Reaction(n', Ready(Notify(p, HandlerIn.Ack(requestId))))
  }

  function OnManagerPong(n: Node, p: PeerId, user: int, now: int): Reaction {
    if !Holds(n.role, p) then Reaction(n, Ready(Generate(NotMine(p, HandlerOut.ManagerPong(user)))))
    else match n.role
      case Managing(workers) =>
        Reaction(n.(role := Managing(workers[p := workers[p].(lastPong := now)])), Ready(Generate(WorkerPong(p))))
      case Working(manager) =>
        Reaction(n.(role := Working(Some((p, manager.value.1.(lastPong := now))))), Ready(Generate(ManagerPong(p))))
  }

  /** Requests a node only accepts in a relationship; otherwise it answers `NotMine`. */
  function OnRelated(n: Node, p: PeerId, event: HandlerOut): Reaction
    requires event.ManagerPing? || event.TasksExecute? || event.TasksPing? || event.TasksAbord? || event.TaskStatus?
  {
    var id := event.requestId;
    var shown := match event
      case TasksExecute(_, _) => HandlerOut.TasksExecute([], 0)
      case TasksPing(_, _) => HandlerOut.TasksPing([], 0)
      case TasksAbord(_, _) => HandlerOut.TasksAbord([], 0)
      case TaskStatus(taskId, status, _) => HandlerOut.TaskStatus(taskId, status, 0)
      case _ => HandlerOut.ManagerPing(0);
    if !Holds(n.role, p) then Reaction(Say(n, NotMine(p, shown)), Ready(Notify(p, HandlerIn.NotMine(id))))
    else
      var ack := Ready(Notify(p, HandlerIn.Ack(id)));
      match event
      case TasksExecute(tasks, _) => Reaction(Say(n, TasksExecute(tasks)), ack)
      case TasksPing(ids, _) => Reaction(n, Ready(Generate(TasksPing(ids, id))))
      case TasksAbord(ids, _) => Reaction(Say(n, TasksAbord(ids)), ack)
      case TaskStatus(taskId, status, _) => Reaction(Say(n, TaskStatus(p, taskId, status)), ack)
      case _ => Reaction(n, Ready(Notify(p, HandlerIn.ManagerPong(id))))
  }

  /** `handler_event`. */
  function OnHandler(cfg: Config, n0: Node, p: PeerId, event: HandlerOut, now: int): Reaction {
    var n := WithPeer(n0, p, PeerAt(n0, p));
    match event
    case NodeTypeRequest(t, id) => OnNodeTypeRequest(cfg, n, p, t, id)
    case NodeTypeAnswer(t, _) => OnNodeTypeAnswer(cfg, n, p, t)
    case NotMine(_) => OnNotMine(n, p)
    case ManagerRequest(specs, id) => OnManagerRequest(n, p, specs, id, now)
    case ManagerAnswer(accepted, user) => OnManagerAnswer(cfg, n, p, accepted, user, now)
    case ManagerBye(id) => OnManagerBye(n, p, id)
    case ManagerPong(user) => OnManagerPong(n, p, user, now)
    case TasksPong(statuses, _) =>
      Reaction(n, Ready(Generate(if Holds(n.role, p) then TasksPong(p, statuses) else NotMine(p, event))))
    case QueryError(_, _) => Reaction(Say(n, FromPeer(p, event)), Pending)
    case _ => OnRelated(n, p, event)
  }

  // ---------------------------------------------------------------- the queue

  function OnInternal(cfg: Config, n: Node, e: Internal, now: int): Reaction {
    match e
    case Act(action) => Reaction(n, Ready(action))
    case Mdns(p, address) =>
      var peer := PeerAt(n, p).(addrs := PeerAt(n, p).addrs + {address});
      Reaction(WithPeer(n, p, peer.(dialed := true)), if peer.dialed then Pending else Ready(Dial(p)))
    case SendMessage(p, msg) =>
      var sent := SendOrDial(n, p, msg);
      Reaction(sent.0, Ready(sent.1))
    case FromHandler(p, event) => OnHandler(cfg, n, p, event, now)
    case AskNodeType(p) =>
      var n' := WithPeer(n, p, PeerAt(n, p));
      if PeerAt(n, p).nodeType.Some? then Reaction(n', Pending)
      else Reaction(Counted(n'), Ready(Notify(p, HandlerIn.NodeTypeRequest(TypeOf(n.role), n.nextQuery))))
  }

  /** One turn of the loop of `poll`: takes the oldest event and handles it. */
  function Next(cfg: Config, n: Node, now: int): Reaction
    requires n.events != []
  {
    OnInternal(cfg, n.(events := n.events[1..]), n.events[0], now)
  }

  /** Only actions are ever queued while handling an event, and an action ends the poll. */
  ghost predicate OnlyActs(before: seq<Internal>, after: seq<Internal>) {
    && |before| <= |after|
    && after[..|before|] == before
    && forall i | |before| <= i < |after| :: after[i].Act?
  }

  function Waiting(events: seq<Internal>): nat {
    if events == [] then 0 else Waiting(events[..|events| - 1]) + (if events[|events| - 1].Act? then 0 else 1)
  }

  lemma {:induction false} WaitingActs(before: seq<Internal>, after: seq<Internal>)
    requires OnlyActs(before, after)
    ensures Waiting(after) == Waiting(before)
    decreases |after|
  {
    if |after| > |before| {
      var n := |after| - 1;
      assert after[..n][..|before|] == before;
      WaitingActs(before, after[..n]);
    } else {
      assert after == before;
    }
  }

  lemma {:induction false} WaitingFirst(events: seq<Internal>)
    requires events != []
    ensures Waiting(events) == Waiting(events[1..]) + (if events[0].Act? then 0 else 1)
  {
    var n := |events| - 1;
    if n > 0 {
      WaitingFirst(events[..n]);
      assert events[1..][..n - 1] == events[..n][1..];
    } else {
      assert events[1..] == [];
    }
  }

  /** Shorthand for a reaction that only queues actions. */
  ghost predicate Queues(n: Node, r: Reaction) {
    OnlyActs(n.events, r.node.events)
  }

  lemma QueuesNone(n: Node)
    ensures OnlyActs(n.events, n.events)
  {
    assert n.events[..|n.events|] == n.events;
  }

  lemma QueuesOne(n: Node, action: Action)
    ensures OnlyActs(n.events, n.events + [Act(action)])
  {
  }

  lemma HandlerQueues(cfg: Config, n: Node, p: PeerId, event: HandlerOut, now: int)
    ensures Queues(n, OnHandler(cfg, n, p, event, now))
  {
    hide OnlyActs;
    var n1 := WithPeer(n, p, PeerAt(n, p));
    var r := OnHandler(cfg, n, p, event, now);
    QueuesNone(n);
    match event
    case NodeTypeRequest(t, id) => NodeTypeQueues(cfg, n1, p, t, id);
    case NodeTypeAnswer(t, id) => NodeTypeQueues(cfg, n1, p, t, 0);
    case ManagerAnswer(accepted, user) => AnswerQueues(cfg, n1, p, accepted, user, now);
    case ManagerRequest(specs, id) => RequestQueues(n1, p, specs, id, now);
    case ManagerBye(id) => QueuesOne(n, Generate(if n.role.Working? then ManagerBye(p) else WorkerBye(p)));
    case QueryError(_, _) => QueuesOne(n, Generate(FromPeer(p, event)));
    case NotMine(_) =>
    case ManagerPong(_) =>
    case TasksPong(_, _) =>
    case _ => RelatedQueues(n1, p, event);
  }

  lemma NodeTypeQueues(cfg: Config, n: Node, p: PeerId, t: NodeType, id: nat)
    ensures Queues(n, OnNodeTypeAnswer(cfg, n, p, t)) && Queues(n, OnNodeTypeRequest(cfg, n, p, t, id))
  {
  }

  lemma AnswerQueues(cfg: Config, n: Node, p: PeerId, accepted: bool, user: int, now: int)
    ensures Queues(n, OnManagerAnswer(cfg, n, p, accepted, user, now))
  {
  }

  lemma RequestQueues(n: Node, p: PeerId, specs: Specs, id: nat, now: int)
    ensures Queues(n, OnManagerRequest(n, p, specs, id, now))
  {
  }

  lemma RelatedQueues(n: Node, p: PeerId, event: HandlerOut)
    requires event.ManagerPing? || event.TasksExecute? || event.TasksPing? || event.TasksAbord? || event.TaskStatus?
    ensures Queues(n, OnRelated(n, p, event))
  {
  }

  lemma InternalQueues(cfg: Config, n: Node, e: Internal, now: int)
    ensures OnlyActs(n.events, OnInternal(cfg, n, e, now).node.events)
  {
    hide OnHandler;
    hide OnlyActs;
    QueuesNone(n);
    if e.FromHandler? { HandlerQueues(cfg, n, e.peer, e.event, now); }
  }

  /** Every turn that neither returns nor stops the node leaves fewer events that are not actions. */
  lemma NextLowers(cfg: Config, n: Node, now: int)
    requires n.events != []
    ensures var r := Next(cfg, n, now); r.outcome.Pending? ==> Waiting(r.node.events) < Waiting(n.events)
  {
    hide OnHandler;
    WaitingFirst(n.events);
    InternalQueues(cfg, n.(events := n.events[1..]), n.events[0], now);
    WaitingActs(n.events[1..], Next(cfg, n, now).node.events);
  }

  /** The loop of `poll`: until an event gives something to return or stops the node, or none is left. */
  function Drain(cfg: Config, n: Node, now: int): Reaction
    decreases Waiting(n.events)
  {
    if n.events == [] then Reaction(n, Pending)
    else
      var r := Next(cfg, n, now);
      if !r.outcome.Pending? then r
      else
        NextLowers(cfg, n, now);
        Drain(cfg, r.node, now)
  }

  // ---------------------------------------------------------------- time

  datatype Verdict = TimedOut | MustPing | Continuing

  /** `check_manager_worker_relationship`. */
  function Check(cfg: Config, link: Link, now: int): Verdict {
    if link.lastPong < link.lastPing && now - link.lastPong >= cfg.timeout then TimedOut
    else if now - link.lastPong > cfg.interval && now - link.lastPing > cfg.interval then MustPing
    else Continuing
  }

  function Checked(cfg: Config, link: Link, now: int): Link {
    if Check(cfg, link, now).MustPing? then link.(lastPing := now) else link
  }

  /** Giving up a relationship the node is not in is unreachable in the program: it would panic. */
  function OnVerdict(n: Node, p: PeerId, verdict: Verdict): Reaction {
    match verdict
    case Continuing => Reaction(n, Pending)
    case MustPing => Reaction(QueueSend(Counted(n), p, HandlerIn.ManagerPing(n.nextQuery)), Pending)
    case TimedOut =>
      var n' := QueueSend(Counted(n), p, HandlerIn.ManagerBye(n.nextQuery));
      if !Holds(n'.role, p) then Reaction(n', Stopped)
      else
        Reaction(Say(n'.(role := Broken(n'.role, p)), if n'.role.Working? then ManagerTimedOut(p) else WorkerTimedOut(p)),
                 Pending)
  }

  function OnVerdicts(n: Node, verdicts: seq<(PeerId, Verdict)>): Reaction {
    if verdicts == [] then Reaction(n, Pending)
    else
      var last := verdicts[|verdicts| - 1];
      var r := OnVerdicts(n, verdicts[..|verdicts| - 1]);
      if r.outcome.Pending? then OnVerdict(r.node, last.0, last.1) else r
  }

  /** The verdicts on the peers of `order`, the order in which the map of workers is iterated. */
  function Verdicts(cfg: Config, workers: map<PeerId, Link>, order: seq<PeerId>, now: int): seq<(PeerId, Verdict)>
    requires forall p | p in order :: p in workers
  {
    if order == [] then []
    else
      var last := order[|order| - 1];
      var verdict := Check(cfg, workers[last], now);
      Verdicts(cfg, workers, order[..|order| - 1], now) + (if verdict.Continuing? then [] else [(last, verdict)])
  }

  /** Each key once. */
  predicate Iterates(order: seq<PeerId>, workers: map<PeerId, Link>) {
    && (forall i, j | 0 <= i < j < |order| :: order[i] != order[j])
    && (forall p | p in order :: p in workers)
    && (forall p | p in workers :: p in order)
  }

  /** The first part of `poll`: pings and time-outs. */
  function Timers(cfg: Config, n: Node, order: seq<PeerId>, now: int): Reaction
    requires n.role.Managing? ==> forall p | p in order :: p in n.role.workers
  {
    if n.shutting then Reaction(n, Pending)
    else match n.role
      case Managing(workers) =>
        OnVerdicts(n.(role := Managing(map p | p in workers :: Checked(cfg, workers[p], now))),
                   Verdicts(cfg, workers, order, now))
      case Working(manager) =>
        if manager.None? then Reaction(n, Pending)
        else
          var (p, link) := manager.value;
          OnVerdict(n.(role := Working(Some((p, Checked(cfg, link, now))))), p, Check(cfg, link, now))
  }

  /** The workers among `links` not given up by the verdicts on `order`. */
  ghost function Spared(cfg: Config, workers: map<PeerId, Link>, order: seq<PeerId>, now: int, links: map<PeerId, Link>)
    : map<PeerId, Link>
    requires forall p | p in order :: p in workers
  {
    map p | p in links && !(p in order && Check(cfg, workers[p], now).TimedOut?) :: links[p]
  }

  lemma SparedMore(cfg: Config, workers: map<PeerId, Link>, front: seq<PeerId>, last: PeerId, now: int, links: map<PeerId, Link>)
    requires last in workers && forall p | p in front :: p in workers
    ensures Spared(cfg, workers, front + [last], now, links)
            == if Check(cfg, workers[last], now).TimedOut? then Spared(cfg, workers, front, now, links) - {last}
               else Spared(cfg, workers, front, now, links)
  {
    hide Check;
  }

  lemma SparedNone(cfg: Config, workers: map<PeerId, Link>, now: int, links: map<PeerId, Link>)
    ensures Spared(cfg, workers, [], now, links) == links
  {
  }

  lemma SparedLast(cfg: Config, workers: map<PeerId, Link>, front: seq<PeerId>, last: PeerId, now: int, links: map<PeerId, Link>)
    requires last in links && last !in front && forall p | p in front :: p in workers
    ensures last in Spared(cfg, workers, front, now, links)
  {
  }

  lemma VerdictRole(n: Node, p: PeerId, verdict: Verdict)
    requires n.role.Managing?
    ensures var r := OnVerdict(n, p, verdict);
            && r.node.role == Managing(if verdict.TimedOut? then n.role.workers - {p} else n.role.workers)
            && (p in n.role.workers ==> r.outcome.Pending?)
  {
  }

  /** The verdicts on distinct workers give up exactly those that timed out, each of them a worker until then. */
  lemma {:induction false} VerdictsRemove(cfg: Config, n: Node, workers: map<PeerId, Link>, order: seq<PeerId>, now: int)
    requires n.role.Managing? && (forall p | p in order :: p in workers && p in n.role.workers)
    requires forall i, j | 0 <= i < j < |order| :: order[i] != order[j]
    ensures OnVerdicts(n, Verdicts(cfg, workers, order, now)).outcome.Pending?
    ensures OnVerdicts(n, Verdicts(cfg, workers, order, now)).node.role
            == Managing(Spared(cfg, workers, order, now, n.role.workers))
  {
    hide OnVerdict;
    hide Check;
    hide Spared;
    if order == [] {
      SparedNone(cfg, workers, now, n.role.workers);
    } else {
      var front, last := order[..|order| - 1], order[|order| - 1];
      var verdict := Check(cfg, workers[last], now);
      VerdictsRemove(cfg, n, workers, front, now);
      SparedMore(cfg, workers, front, last, now, n.role.workers);
      SparedLast(cfg, workers, front, last, now, n.role.workers);
      assert order == front + [last];
      VerdictRole(OnVerdicts(n, Verdicts(cfg, workers, front, now)).node, last, verdict);
      MoreVerdicts(n, Verdicts(cfg, workers, front, now), last, verdict);
    }
  }

  lemma MoreVerdicts(n: Node, verdicts: seq<(PeerId, Verdict)>, p: PeerId, verdict: Verdict)
    ensures var r := OnVerdicts(n, verdicts);
            OnVerdicts(n, verdicts + [(p, verdict)]) == if r.outcome.Pending? then OnVerdict(r.node, p, verdict) else r
    ensures verdicts + [] == verdicts
  {
    hide OnVerdict;
    assert (verdicts + [(p, verdict)])[..|verdicts|] == verdicts;
  }

  /** The branch the program calls unreachable is: pings and time-outs never stop a node. */
  lemma TimersGo(cfg: Config, n: Node, order: seq<PeerId>, now: int)
    requires n.role.Managing? ==> Iterates(order, n.role.workers)
    ensures Timers(cfg, n, order, now).outcome.Pending?
  {
    hide Check;
    if n.role.Managing? {
      var workers := n.role.workers;
      VerdictsRemove(cfg, n.(role := Managing(map p | p in workers :: Checked(cfg, workers[p], now))), workers, order, now);
    }
  }

  function Polled(cfg: Config, n: Node, order: seq<PeerId>, now: int): Reaction
    requires n.role.Managing? ==> forall p | p in order :: p in n.role.workers
  {
    var r := Timers(cfg, n, order, now);
    if r.outcome.Stopped? then r else Drain(cfg, r.node, now)
  }

  // ---------------------------------------------------------------- orders and connections

  /** `send_to_peer`: nothing but a `ManagerBye` is sent while shutting down. */
  function Sendable(n: Node, p: PeerId, msg: HandlerIn): Action {
    if n.shutting && !msg.ManagerBye? then Generate(MsgDropped(p, msg)) else Notify(p, msg)
  }

  function Filtered(n: Node, action: Action): Action {
    if action.Notify? then Sendable(n, action.peer, action.msg) else action
  }

  function ByeEach(n: Node, peers: seq<PeerId>): Node {
    if peers == [] then n
    else
      var n' := ByeEach(n, peers[..|peers| - 1]);
      QueueSend(Counted(n'), peers[|peers| - 1], HandlerIn.ManagerBye(n'.nextQuery))
  }

  /** A node told to shut down says goodbye; a worker forgets its manager, a manager keeps its workers. */
  function OnBye(n: Node, order: seq<PeerId>): Node {
    match n.role
    case Managing(_) => ByeEach(n, order).(shutting := true)
    case Working(manager) =>
      ByeEach(n.(role := Working(None)), if manager.Some? then [manager.value.0] else []).(shutting := true)
  }

  /** `handle_event_in`. */
  function OnOrder(n: Node, o: Order, order: seq<PeerId>): Node {
    match o
    case Ping => Say(n, Pong)
    case ToHandler(p, msg) => Queue(n, Act(Sendable(n, p, msg)))
    case Execute(p, tasks) =>
      var sent := SendOrDial(Counted(n), p, HandlerIn.TasksExecute(tasks, n.nextQuery));
      Queue(sent.0, Act(Filtered(n, sent.1)))
    case AskTasks(p, ids) =>
      var sent := SendOrDial(Counted(n), p, HandlerIn.TasksPing(ids, n.nextQuery));
      Queue(sent.0, Act(Filtered(n, sent.1)))
    case AnswerTasks(statuses, id) =>
      if n.role.Working? && n.role.manager.Some? then
        Queue(n, Act(Sendable(n, n.role.manager.value.0, HandlerIn.TasksPong(statuses, id))))
      else Say(n, NoManager(o))
    case Advertise(taskId, status) =>
      if n.role.Working? && n.role.manager.Some? then
        var sent := SendOrDial(Counted(n), n.role.manager.value.0, HandlerIn.TaskStatus(taskId, status, n.nextQuery));
        Queue(sent.0, Act(Filtered(n, sent.1)))
      else Say(n, NoManager(o))
    case Bye => OnBye(n, order)
  }

  function SendEach(n: Node, p: PeerId, msgs: seq<HandlerIn>): Node {
    n.(events := n.events + seq(|msgs|, i requires 0 <= i < |msgs| => SendMessage(p, msgs[i])))
  }

  /** `inject_connected`. */
  function OnConnected(n: Node, p: PeerId): Node {
    var peer := PeerAt(n, p);
    var asked := if peer.nodeType.None? then Queue(n, AskNodeType(p)) else n;
    Say(SendEach(WithPeer(asked, p, peer.(connected := true, pending := [])), p, peer.pending), PeerConnected(p))
  }

  /** `inject_disconnected`: a panic for a peer never seen. */
  function OnDisconnected(n: Node, p: PeerId): Reaction {
    if p !in n.peers then Reaction(n, Stopped)
    else Reaction(Say(WithPeer(n, p, n.peers[p].(connected := false)), PeerDisconnected(p)), Pending)
  }

  // ---------------------------------------------------------------- locks

  /** The node takes the lock of a peer's record a second time, in a way its first guard rules out. */
  predicate SelfLocks(n: Node, e: Internal) {
    e.FromHandler? &&
    if e.event.ManagerRequest? then n.role.Managing? && PeerAt(n, e.peer).nodeType != Some(Substreams.Worker)
    else
      && e.event.ManagerAnswer? && n.role.Working? && n.role.manager.Some? && n.role.manager.value.0 == e.peer
      && PeerAt(n, e.peer).nodeType == Some(Substreams.Manager) && !n.shutting
  }

  /** A turn of `poll` stops the node exactly when it does so. */
  lemma TurnStopsIff(cfg: Config, n: Node, now: int)
    requires n.events != []
    ensures Next(cfg, n, now).outcome.Stopped? <==> SelfLocks(n, n.events[0])
  {
    hide QueueSend;
    hide SendOrDial;
  }

  /** The node after `k` turns of a poll that neither return nor stop it. */
  function Turns(cfg: Config, n: Node, now: int, k: nat): Option<Node>
    decreases k
  {
    if k == 0 then Some(n)
    else if n.events == [] || !Next(cfg, n, now).outcome.Pending? then None
    else Turns(cfg, Next(cfg, n, now).node, now, k - 1)
  }

  ghost predicate StopsAfter(cfg: Config, n: Node, now: int, k: nat) {
    var m := Turns(cfg, n, now, k);
    m.Some? && m.value.events != [] && SelfLocks(m.value, m.value.events[0])
  }

  /** A poll stops the node exactly when one of its turns does, before any returns. */
  lemma {:induction false} DrainStopsIff(cfg: Config, n: Node, now: int)
    ensures Drain(cfg, n, now).outcome.Stopped? <==> exists k: nat :: StopsAfter(cfg, n, now, k)
    decreases Waiting(n.events)
  {
    hide Next;
    hide SelfLocks;
    if n.events != [] {
      TurnStopsIff(cfg, n, now);
      var r := Next(cfg, n, now);
      if r.outcome.Pending? {
        NextLowers(cfg, n, now);
        DrainStopsIff(cfg, r.node, now);
        if k: nat :| StopsAfter(cfg, r.node, now, k) { assert StopsAfter(cfg, n, now, k + 1); }
        if k: nat :| StopsAfter(cfg, n, now, k) {
          assert k > 0;
          assert StopsAfter(cfg, r.node, now, k - 1);
        }
      } else if r.outcome.Stopped? {
        assert StopsAfter(cfg, n, now, 0);
      }
    }
  }
}

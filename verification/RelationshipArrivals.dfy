/** What the rest of a program hears of its peers' messages, and orders on their way from one node to another. */
module RelationshipArrivals {
  import opened Base
  import opened Relationship
  import opened RelationshipRuns
  import opened RelationshipMessages
  import opened RelationshipExchanges
  import Substreams
  import Handler

  // ---------------------------------------------------------------- what is announced

  /** What the program hears of a `ManagerAnswer`, in the order in which its parts are looked at. */
  ghost function AnswerHeard(cfg: Config, n: Node, p: PeerId, accepted: bool, user: int): seq<Out> {
    var answer := HandlerOut.ManagerAnswer(accepted, user);
    var known := PeerAt(n, p).nodeType;
    if n.role.Managing? then [MsgForIncorrectNodeType(p, Substreams.Worker, answer)]
    else if known != Some(Substreams.Manager) then [MsgFromIncorrectNodeType(p, known, Substreams.Manager, answer)]
    else if Holds(n.role, p) then (if n.shutting then [MsgDropped(p, HandlerIn.ManagerPing(n.nextQuery))] else [])
    else if n.role.manager.Some? then [ManagerAlreadyHasOne(p)]
    else if !accepted then [ManagerRefused(p)]
    else if cfg.authorized(p, PeerAt(n, p).addrs) then [ManagerNew(p)]
    else [ManagerUnauthorized(p)]
  }

  /** What the program hears of an event of a peer. A request of somebody else is only reported, without its contents. */
  ghost function Heard(cfg: Config, n: Node, p: PeerId, event: HandlerOut): seq<Out> {
    var related := Holds(n.role, p);
    match event
    case NodeTypeRequest(t, _) => TypeHeard(n, p, t)
    case NodeTypeAnswer(t, _) => TypeHeard(n, p, t)
    case NotMine(_) => if related then [EndOf(n.role, p)] else []
    case ManagerBye(_) => if related then [EndOf(n.role, p)] else []
    case ManagerRequest(specs, _) =>
      if n.role.Working? then [MsgForIncorrectNodeType(p, Substreams.Manager, HandlerOut.ManagerRequest(specs, 0))]
      else if PeerAt(n, p).nodeType == Some(Substreams.Worker) then [WorkerNew(p, specs)] else []
    case ManagerAnswer(accepted, user) => AnswerHeard(cfg, n, p, accepted, user)
    case ManagerPing(_) => if related then [] else [Out.NotMine(p, HandlerOut.ManagerPing(0))]
    case ManagerPong(_) => [if !related then Out.NotMine(p, event) else if n.role.Managing? then WorkerPong(p) else ManagerPong(p)]
    case TasksExecute(tasks, _) => [if related then Out.TasksExecute(tasks) else Out.NotMine(p, HandlerOut.TasksExecute([], 0))]
    case TasksPing(ids, id) => [if related then Out.TasksPing(ids, id) else Out.NotMine(p, HandlerOut.TasksPing([], 0))]
    case TasksPong(statuses, _) => [if related then Out.TasksPong(p, statuses) else Out.NotMine(p, event)]
    case TasksAbord(ids, _) => [if related then Out.TasksAbord(ids) else Out.NotMine(p, HandlerOut.TasksAbord([], 0))]
    case TaskStatus(taskId, status, _) =>
      [if related then Out.TaskStatus(p, taskId, status) else Out.NotMine(p, HandlerOut.TaskStatus(taskId, status, 0))]
    case QueryError(_, _) => [FromPeer(p, event)]
  }

  /** The first type a peer gives is kept, and another is reported. */
  ghost function TypeHeard(n: Node, p: PeerId, t: NodeType): seq<Out> {
    match PeerAt(n, p).nodeType
    case None => [PeerHasNewType(p, t)]
    case Some(known) => if known == t then [] else [PeerGivesDifferentNodeType(p, known, t)]
  }

  ghost function EndOf(role: Role, p: PeerId): Out {
    if role.Working? then ManagerBye(p) else WorkerBye(p)
  }

  /** The events queued for the program, and then the one returned to it. */
  ghost predicate Tells(n: Node, r: Reaction, outs: seq<Out>) {
    && n.events <= r.node.events
    && Outs(r.node.events[|n.events|..]) + (if r.outcome.Ready? then OutOf(Act(r.outcome.action)) else []) == outs
  }

  lemma TellsReturned(n: Node, r: Reaction, outs: seq<Out>)
    requires r.node.events == n.events
    requires outs == if r.outcome.Ready? then OutOf(Act(r.outcome.action)) else []
    ensures Tells(n, r, outs)
  {
    assert r.node.events[|n.events|..] == [];
    assert [] + outs == outs;
  }

  lemma TellsQueued(n: Node, r: Reaction, o: Out)
    requires r.node.events == n.events + [Act(Generate(o))]
    requires !(r.outcome.Ready? && r.outcome.action.Generate?)
    ensures Tells(n, r, [o])
  {
    assert r.node.events[|n.events|..] == [Act(Generate(o))];
    OutsOne(Act(Generate(o)));
  }

  lemma TypesTell(cfg: Config, n: Node, p: PeerId, t: NodeType, id: nat)
    ensures Tells(n, OnNodeTypeAnswer(cfg, n, p, t), TypeHeard(n, p, t))
    ensures Tells(n, OnNodeTypeRequest(cfg, n, p, t, id), TypeHeard(n, p, t))
  {
    hide Tells;
    var r, r' := OnNodeTypeAnswer(cfg, n, p, t), OnNodeTypeRequest(cfg, n, p, t, id);
    if PeerAt(n, p).nodeType.None? {
      TellsQueued(n, r, PeerHasNewType(p, t));
      if r.outcome.Ready? { TellsBefore(n, r, r', PeerHasNewType(p, t)); } else { TellsQueued(n, r', PeerHasNewType(p, t)); }
    } else {
      TellsReturned(n, r, TypeHeard(n, p, t));
      if r.outcome.Ready? { TellsQueued(n, r', TypeHeard(n, p, t)[0]); } else { TellsReturned(n, r', []); }
    }
  }

  /** Queueing a message behind an announcement. */
  lemma TellsBefore(n: Node, r: Reaction, r': Reaction, o: Out)
    requires r.node.events == n.events + [Act(Generate(o))] && r.outcome.Ready? && r.outcome.action.Notify?
    requires r'.node.events == r.node.events + [Act(r.outcome.action)] && r'.outcome.Ready? && r'.outcome.action.Notify?
    ensures Tells(n, r', [o])
  {
    assert r'.node.events[|n.events|..] == [Act(Generate(o))] + [Act(r.outcome.action)];
    OutsAppend([Act(Generate(o))], [Act(r.outcome.action)]);
    OutsOne(Act(Generate(o)));
    OutsOne(Act(r.outcome.action));
    assert [o] + [] == [o];
  }

  lemma AnswerTells(cfg: Config, n: Node, p: PeerId, accepted: bool, user: int, now: int)
    ensures Tells(n, OnManagerAnswer(cfg, n, p, accepted, user, now), AnswerHeard(cfg, n, p, accepted, user))
  {
    hide Tells;
    var r, outs := OnManagerAnswer(cfg, n, p, accepted, user, now), AnswerHeard(cfg, n, p, accepted, user);
    if r.node.events == n.events { TellsReturned(n, r, outs); } else { TellsQueued(n, r, outs[0]); }
  }

  lemma OthersTell(cfg: Config, n: Node, p: PeerId, event: HandlerOut, now: int)
    requires p in n.peers
    requires !event.NodeTypeRequest? && !event.NodeTypeAnswer? && !event.ManagerAnswer?
    ensures Tells(n, OnHandler(cfg, n, p, event, now), Heard(cfg, n, p, event))
  {
    hide Tells;
    hide OnNodeTypeAnswer;
    hide OnNodeTypeRequest;
    hide OnManagerAnswer;
    hide TypeHeard;
    hide AnswerHeard;
    var r, outs := OnHandler(cfg, n, p, event, now), Heard(cfg, n, p, event);
    if r.node.events == n.events { TellsReturned(n, r, outs); } else { TellsQueued(n, r, outs[0]); }
  }

  /** Whatever a peer sends, the program hears this of it and nothing else. */
  lemma HandlerTells(cfg: Config, n: Node, p: PeerId, event: HandlerOut, now: int)
    ensures Tells(n, OnHandler(cfg, n, p, event, now), Heard(cfg, n, p, event))
  {
    hide Tells;
    hide OnNodeTypeAnswer;
    hide OnNodeTypeRequest;
    hide OnManagerAnswer;
    hide OnManagerRequest;
    hide OnRelated;
    hide OnManagerBye;
    hide OnManagerPong;
    hide OnNotMine;
    var n1 := WithPeer(n, p, PeerAt(n, p));
    SeenTells(cfg, n, p, event, now);
    match event
    case NodeTypeRequest(t, id) => TypesTell(cfg, n1, p, t, id);
    case NodeTypeAnswer(t, _) => TypesTell(cfg, n1, p, t, 0);
    case ManagerAnswer(accepted, user) => AnswerTells(cfg, n1, p, accepted, user, now);
    case _ => OthersTell(cfg, n1, p, event, now);
  }

  lemma SeenTells(cfg: Config, n: Node, p: PeerId, event: HandlerOut, now: int)
    ensures var n1 := WithPeer(n, p, PeerAt(n, p));
            && p in n1.peers && OnHandler(cfg, n1, p, event, now) == OnHandler(cfg, n, p, event, now)
            && Heard(cfg, n1, p, event) == Heard(cfg, n, p, event)
            && forall r, outs :: Tells(n1, r, outs) <==> Tells(n, r, outs)
  {
    hide Tells;
    hide OnHandler;
    var n1 := WithPeer(n, p, PeerAt(n, p));
    SeenSame(cfg, n, p, event, now);
    forall r, outs ensures Tells(n1, r, outs) <==> Tells(n, r, outs) { TellsSame(n, n1, r, outs); }
  }

  lemma TellsSame(n: Node, n1: Node, r: Reaction, outs: seq<Out>)
    requires n1.events == n.events
    ensures Tells(n1, r, outs) <==> Tells(n, r, outs)
  {
  }

  lemma SeenSame(cfg: Config, n: Node, p: PeerId, event: HandlerOut, now: int)
    ensures OnHandler(cfg, WithPeer(n, p, PeerAt(n, p)), p, event, now) == OnHandler(cfg, n, p, event, now)
  {
    hide OnNodeTypeAnswer;
    hide OnNodeTypeRequest;
    hide OnManagerAnswer;
    hide OnManagerRequest;
    hide OnRelated;
    hide OnManagerBye;
    hide OnManagerPong;
    hide OnNotMine;
    var n1 := WithPeer(n, p, PeerAt(n, p));
    assert WithPeer(n1, p, PeerAt(n1, p)) == n1;
  }

  // ---------------------------------------------------------------- orders

  /** What an order of node `pa` is for the program of the node it goes to, which reads it as request `id`. */
  ghost function Content(o: Order, pa: PeerId, id: nat): Option<Out> {
    match o
    case Execute(_, tasks) => Some(Out.TasksExecute(tasks))
    case AskTasks(_, ids) => Some(Out.TasksPing(ids, id))
    case Advertise(taskId, status) => Some(Out.TaskStatus(pa, taskId, status))
    case ToHandler(_, TasksAbord(ids, _)) => Some(Out.TasksAbord(ids))
    case _ => None
  }

  /** How a message that was handed out reads at the peer. */
  function Reads(msg: HandlerIn, id: nat): Option<HandlerOut> {
    Substreams.ProcessRequest(Handler.MessageOf(msg), id)
  }

  /**
   An order of `a` for `pb`, read by `b` as request `id`. If `a` is related to `b` its program hears exactly the
   order, and it is acknowledged, unless it is a question for the program. Otherwise the program is not given the
   order, and `b` refuses it, whereupon the relationship of `a` ends too if it had one.
   */
  lemma OrderArrives(cfgA: Config, cfgB: Config, a: Node, o: Order, order: seq<PeerId>, b: Node, pa: PeerId, id: nat, now: int,
                     a': Node, user: nat)
    requires Content(o, pa, id).Some? && OrderGives(a, o, order) != []
    ensures var (pb, msg) := OrderGives(a, o, order)[0];
            && Reads(msg, id).Some?
            && var rb := OnHandler(cfgB, b, pa, Reads(msg, id).value, now);
               && rb.node.role == b.role
               && (Holds(b.role, pa) ==>
                     && Tells(b, rb, [Content(o, pa, id).value])
                     && (!o.AskTasks? ==> rb.outcome == Ready(Notify(pa, HandlerIn.Ack(id))))
                     && Answered(cfgA, a', pb, HandlerIn.Ack(id), user, now) == Reaction(a', Pending))
               && (!Holds(b.role, pa) ==>
                     && !Tells(b, rb, [Content(o, pa, id).value])
                     && rb.outcome == Ready(Notify(pa, HandlerIn.NotMine(id)))
                     && Answered(cfgA, a', pb, HandlerIn.NotMine(id), user, now).node.role == Broken(a'.role, pb))
  {
    hide Tells;
    hide OnHandler;
    var (pb, msg) := OrderGives(a, o, order)[0];
    ContentRead(cfgB, a, o, order, b, pa, id);
    var event := Reads(msg, id).value;
    HandlerTells(cfgB, b, pa, event, now);
    RelatedAnswers(cfgB, b, pa, event, now);
    RefusalHandled(cfgA, a', pb, id, user, now);
    AckHandled(cfgA, a', pb, id, user, now);
    var rb := OnHandler(cfgB, b, pa, event, now);
    if Tells(b, rb, [Content(o, pa, id).value]) {
      OneStory(b, rb, [Content(o, pa, id).value], Heard(cfgB, b, pa, event));
    }
  }

  lemma OneStory(n: Node, r: Reaction, a: seq<Out>, b: seq<Out>)
    requires Tells(n, r, a) && Tells(n, r, b)
    ensures a == b
  {
  }

  predicate Related(event: HandlerOut) {
    event.ManagerPing? || event.TasksExecute? || event.TasksPing? || event.TasksAbord? || event.TaskStatus?
  }

  lemma ContentRead(cfg: Config, a: Node, o: Order, order: seq<PeerId>, b: Node, pa: PeerId, id: nat)
    requires Content(o, pa, id).Some? && OrderGives(a, o, order) != []
    ensures var event := Reads(OrderGives(a, o, order)[0].1, id);
            && event.Some? && Related(event.value) && event.value.requestId == id && !event.value.ManagerPing?
            && (o.AskTasks? <==> event.value.TasksPing?)
            && (Heard(cfg, b, pa, event.value) == [Content(o, pa, id).value] <==> Holds(b.role, pa))
  {
    hide Handler.MessageOf;
    hide Substreams.ProcessRequest;
    hide Substreams.ProcessAnswer;
    Handler.EventsArrive(OrderGives(a, o, order)[0].1, id, 0);
  }

  /** Requests of a relationship leave it as it is, and are answered according to it. */
  lemma RelatedAnswers(cfg: Config, n: Node, p: PeerId, event: HandlerOut, now: int)
    requires Related(event) && !event.ManagerPing?
    ensures var r := OnHandler(cfg, n, p, event, now);
            && r.node.role == n.role
            && (Holds(n.role, p) && !event.TasksPing? ==> r.outcome == Ready(Notify(p, HandlerIn.Ack(event.requestId))))
            && (!Holds(n.role, p) ==> r.outcome == Ready(Notify(p, HandlerIn.NotMine(event.requestId))))
  {
  }

  lemma AckHandled(cfg: Config, n: Node, p: PeerId, id: nat, user: nat, now: int)
    ensures Answered(cfg, n, p, HandlerIn.Ack(id), user, now) == Reaction(n, Pending)
  {
  }

  /** The statuses a worker answers reach the manager that asked, if it still has the worker. */
  lemma StatusesReturn(cfg: Config, b: Node, statuses: seq<(Id, Bytes)>, id: nat, order: seq<PeerId>, a: Node, pb: PeerId,
                       user: nat, now: int)
    requires OrderGives(b, AnswerTasks(statuses, id), order) != []
    ensures var (pa, msg) := OrderGives(b, AnswerTasks(statuses, id), order)[0];
            && Holds(b.role, pa) && msg.IsAnswer() && msg.requestId == id
            && var r := Answered(cfg, a, pb, msg, user, now);
               && r.node.role == a.role
               && Tells(a, r, [if Holds(a.role, pb) then Out.TasksPong(pb, statuses)
                               else Out.NotMine(pb, HandlerOut.TasksPong(statuses, user))])
  {
    hide Tells;
    hide Handler.MessageOf;
    hide Substreams.ProcessRequest;
    hide Substreams.ProcessAnswer;
    var msg := OrderGives(b, AnswerTasks(statuses, id), order)[0].1;
    Handler.EventsArrive(msg, 0, user);
    HandlerTells(cfg, a, pb, HandlerOut.TasksPong(statuses, user), now);
  }

  // ---------------------------------------------------------------- types

  ghost function Learned(known: Option<NodeType>, t: NodeType): Option<NodeType> {
    if known.Some? then known else Some(t)
  }

  /** Asking a peer for its type tells each node the type of the other, unless it has been told another before. */
  lemma TypesLearned(cfgA: Config, cfgB: Config, a: Node, pb: PeerId, b: Node, pa: PeerId, id: nat, now: int, a': Node, user: nat)
    requires a.events != [] && a.events[0] == AskNodeType(pb) && PeerAt(a, pb).nodeType.None?
    ensures var (to, msg) := TurnGives(cfgA, a)[0];
            && to == pb && Reads(msg, id).Some?
            && var rb := OnHandler(cfgB, b, pa, Reads(msg, id).value, now);
               && PeerAt(rb.node, pa).nodeType == Learned(PeerAt(b, pa).nodeType, TypeOf(a.role))
               && rb.outcome.Ready? && rb.outcome.action.Notify? && rb.outcome.action.peer == pa
               && var answer := rb.outcome.action.msg;
                  && answer.IsAnswer() && answer.requestId == id
                  && PeerAt(Answered(cfgA, a', pb, answer, user, now).node, pb).nodeType
                     == Learned(PeerAt(a', pb).nodeType, TypeOf(b.role))
  {
    hide OnHandler;
    TypeTold(cfgB, b, pa, TypeOf(a.role), id, now);
    TypeTaken(cfgA, a', pb, TypeOf(b.role), id, user, now);
  }

  lemma TypeTold(cfg: Config, b: Node, pa: PeerId, t: NodeType, id: nat, now: int)
    ensures var r := OnHandler(cfg, b, pa, HandlerOut.NodeTypeRequest(t, id), now);
            && PeerAt(r.node, pa).nodeType == Learned(PeerAt(b, pa).nodeType, t)
            && r.outcome == Ready(Notify(pa, HandlerIn.NodeTypeAnswer(TypeOf(b.role), id)))
  {
  }

  lemma TypeTaken(cfg: Config, a: Node, pb: PeerId, t: NodeType, id: nat, user: nat, now: int)
    ensures PeerAt(Answered(cfg, a, pb, HandlerIn.NodeTypeAnswer(t, id), user, now).node, pb).nodeType
            == Learned(PeerAt(a, pb).nodeType, t)
  {
  }
}

/**
 What becomes of every message a node gives for a peer: over every run it is in exactly one place. What a
 node gives is written down here apart, for each event, each order and each passing of time.
 */
module RelationshipMessages {
  import opened Base
  import opened Relationship
  import opened RelationshipRuns
  import Substreams

  type Mail = (PeerId, HandlerIn)

  // ---------------------------------------------------------------- places

  /** An entry of the queue that holds message `m` for `p`: to be sent, to be notified, or to be reported as dropped. */
  predicate Bears(e: Internal, p: PeerId, m: HandlerIn) {
    e == SendMessage(p, m) || e == Act(Notify(p, m)) || e == Act(Generate(MsgDropped(p, m)))
  }

  function One(b: bool): nat {
    if b then 1 else 0
  }

  function Queued(events: seq<Internal>, p: PeerId, m: HandlerIn): nat {
    if events == [] then 0 else Queued(events[..|events| - 1], p, m) + One(Bears(events[|events| - 1], p, m))
  }

  /** How often the node holds the message: in the queue, or until the peer connects. */
  ghost function Held(n: Node, p: PeerId, m: HandlerIn): nat {
    multiset(PeerAt(n, p).pending)[m] + Queued(n.events, p, m)
  }

  /** Whether an outcome hands the message out, or reports it as dropped. */
  function Leaves(outcome: Outcome, p: PeerId, m: HandlerIn): nat {
    One(outcome.Ready? && Bears(Act(outcome.action), p, m))
  }

  ghost function Times(mails: seq<Mail>, p: PeerId, m: HandlerIn): nat {
    multiset(mails)[(p, m)]
  }

  // ---------------------------------------------------------------- what is given

  /** A worker without manager asks a peer it learns to be a manager, if it is authorized. */
  ghost predicate Wants(cfg: Config, n: Node, p: PeerId, t: NodeType) {
    PeerAt(n, p).nodeType.None? && t.Manager? && n.role == Working(None) && cfg.authorized(p, PeerAt(n, p).addrs)
  }

  /** A peer that believes it manages this node, and does not. */
  ghost predicate WronglyManages(cfg: Config, n: Node, p: PeerId) {
    || n.role.Managing? || PeerAt(n, p).nodeType != Some(Substreams.Manager)
    || (n.role.manager.Some? && n.role.manager.value.0 != p)
    || (n.role.manager.None? && !cfg.authorized(p, PeerAt(n, p).addrs))
  }

  /**
   The messages given in return for one of a peer: each request is answered once under its number, except the
   question for the status of tasks, which the rest of the program answers, and the request that stops a manager.
   */
  ghost function Replies(cfg: Config, n: Node, p: PeerId, event: HandlerOut): seq<Mail> {
    var q := n.nextQuery;
    match event
    case NodeTypeRequest(t, id) =>
      (if Wants(cfg, n, p, t) then [(p, HandlerIn.ManagerRequest(cfg.specs, q))] else [])
      + [(p, HandlerIn.NodeTypeAnswer(TypeOf(n.role), id))]
    case NodeTypeAnswer(t, _) => if Wants(cfg, n, p, t) then [(p, HandlerIn.ManagerRequest(cfg.specs, q))] else []
    case ManagerRequest(_, id) =>
      if n.role.Working? then [(p, HandlerIn.ManagerAnswer(false, id))]
      else if PeerAt(n, p).nodeType == Some(Substreams.Worker) then [(p, HandlerIn.ManagerAnswer(true, id))]
      else []
    case ManagerAnswer(accepted, _) =>
      if WronglyManages(cfg, n, p) then (if accepted then [(p, HandlerIn.ManagerBye(q))] else [])
      else if n.role.manager.Some? && n.shutting then [(p, HandlerIn.ManagerPing(q))]
      else []
    case ManagerBye(id) => [(p, HandlerIn.Ack(id))]
    case ManagerPing(id) => [(p, if Holds(n.role, p) then HandlerIn.ManagerPong(id) else HandlerIn.NotMine(id))]
    case TasksExecute(_, id) => [(p, if Holds(n.role, p) then HandlerIn.Ack(id) else HandlerIn.NotMine(id))]
    case TasksAbord(_, id) => [(p, if Holds(n.role, p) then HandlerIn.Ack(id) else HandlerIn.NotMine(id))]
    case TaskStatus(_, _, id) => [(p, if Holds(n.role, p) then HandlerIn.Ack(id) else HandlerIn.NotMine(id))]
    case TasksPing(_, id) => if Holds(n.role, p) then [] else [(p, HandlerIn.NotMine(id))]
    case _ => []
  }

  /** What a turn gives: replies, and the question for the type of a peer that is not known. */
  ghost function TurnGives(cfg: Config, n: Node): seq<Mail> {
    if n.events == [] then []
    else match n.events[0]
      case FromHandler(p, event) => Replies(cfg, n, p, event)
      case AskNodeType(p) =>
        if PeerAt(n, p).nodeType.None? then [(p, HandlerIn.NodeTypeRequest(TypeOf(n.role), n.nextQuery))] else []
      case _ => []
  }

  /** What an order gives. */
  ghost function OrderGives(n: Node, o: Order, order: seq<PeerId>): seq<Mail> {
    var q := n.nextQuery;
    match o
    case Ping => []
    case ToHandler(p, msg) => [(p, msg)]
    case Execute(p, tasks) => [(p, HandlerIn.TasksExecute(tasks, q))]
    case AskTasks(p, ids) => [(p, HandlerIn.TasksPing(ids, q))]
    case AnswerTasks(statuses, id) =>
      if n.role.Working? && n.role.manager.Some? then [(n.role.manager.value.0, HandlerIn.TasksPong(statuses, id))] else []
    case Advertise(taskId, status) =>
      if n.role.Working? && n.role.manager.Some?
      then [(n.role.manager.value.0, HandlerIn.TaskStatus(taskId, status, q))] else []
    case Bye => Byes(if n.role.Managing? then order else if n.role.manager.Some? then [n.role.manager.value.0] else [], q)
  }

  /** A goodbye to each, under numbers in a row. */
  ghost function Byes(peers: seq<PeerId>, q: nat): seq<Mail> {
    seq(|peers|, i requires 0 <= i < |peers| => (peers[i], HandlerIn.ManagerBye(q + i)))
  }

  /** A relationship is over when a ping is not answered in time, and wants a ping when it was silent for the interval. */
  ghost predicate GivenUp(cfg: Config, link: Link, now: int) {
    link.lastPong < link.lastPing && now >= link.lastPong + cfg.timeout
  }

  ghost predicate WantsPing(cfg: Config, link: Link, now: int) {
    !GivenUp(cfg, link, now) && now > link.lastPong + cfg.interval && now > link.lastPing + cfg.interval
  }

  /** What passing time gives for the peers of `order`: pings and goodbyes. */
  ghost function LinksGive(cfg: Config, links: map<PeerId, Link>, order: seq<PeerId>, now: int, q: nat): seq<Mail>
    requires forall p | p in order :: p in links
  {
    if order == [] then []
    else
      var front, last := order[..|order| - 1], order[|order| - 1];
      var given := LinksGive(cfg, links, front, now, q);
      given + (if GivenUp(cfg, links[last], now) then [(last, HandlerIn.ManagerBye(q + |given|))]
               else if WantsPing(cfg, links[last], now) then [(last, HandlerIn.ManagerPing(q + |given|))]
               else [])
  }

  ghost function TimersGive(cfg: Config, n: Node, order: seq<PeerId>, now: int): seq<Mail>
    requires n.role.Managing? ==> forall p | p in order :: p in n.role.workers
  {
    if n.shutting then []
    else match n.role
      case Managing(workers) => LinksGive(cfg, workers, order, now, n.nextQuery)
      case Working(manager) =>
        if manager.None? then []
        else LinksGive(cfg, map[manager.value.0 := manager.value.1], [manager.value.0], now, n.nextQuery)
  }

  // ---------------------------------------------------------------- queueing

  lemma {:induction false} QueuedAppend(a: seq<Internal>, b: seq<Internal>, p: PeerId, m: HandlerIn)
    ensures Queued(a + b, p, m) == Queued(a, p, m) + Queued(b, p, m)
  {
    hide Bears;
    if b == [] {
      assert a + b == a;
    } else {
      QueuedAppend(a, b[..|b| - 1], p, m);
      assert (a + b)[..|a + b| - 1] == a + b[..|b| - 1];
    }
  }

  lemma QueuedOne(e: Internal, p: PeerId, m: HandlerIn)
    ensures Queued([e], p, m) == One(Bears(e, p, m))
  {
    assert [e][..0] == [];
  }

  lemma QueuedMore(events: seq<Internal>, e: Internal, p: PeerId, m: HandlerIn)
    ensures Queued(events + [e], p, m) == Queued(events, p, m) + One(Bears(e, p, m))
  {
    assert (events + [e])[..|events|] == events;
  }

  lemma QueuedFirst(events: seq<Internal>, p: PeerId, m: HandlerIn)
    requires events != []
    ensures Queued(events, p, m) == One(Bears(events[0], p, m)) + Queued(events[1..], p, m)
  {
    hide Bears;
    QueuedAppend([events[0]], events[1..], p, m);
    QueuedOne(events[0], p, m);
    assert events == [events[0]] + events[1..];
  }

  /** No message waiting for a peer is lost or overtaken, and whether it is connected stays. */
  predicate Waits(n: Node, n': Node, p: PeerId) {
    PeerAt(n, p).pending <= PeerAt(n', p).pending && PeerAt(n', p).connected == PeerAt(n, p).connected
  }

  predicate SamePlace(n: Node, n': Node, p: PeerId) {
    PeerAt(n', p).pending == PeerAt(n, p).pending && PeerAt(n', p).connected == PeerAt(n, p).connected
  }

  /** The node holds the message `k` times more. */
  ghost predicate Takes(n: Node, n': Node, p: PeerId, m: HandlerIn, k: int) {
    Held(n', p, m) == Held(n, p, m) + k && Waits(n, n', p)
  }

  lemma TakesTrans(n: Node, n1: Node, n2: Node, p: PeerId, m: HandlerIn, j: int, k: int)
    requires Takes(n, n1, p, m, j) && Takes(n1, n2, p, m, k)
    ensures Takes(n, n2, p, m, j + k)
  {
    hide Held;
  }

  lemma TakesNone(n: Node, n': Node, p: PeerId, m: HandlerIn)
    requires n'.events == n.events && SamePlace(n, n', p)
    ensures Takes(n, n', p, m, 0)
  {
    hide Queued;
  }

  lemma TakesQueued(n: Node, e: Internal, n': Node, p: PeerId, m: HandlerIn)
    requires n'.events == n.events + [e] && SamePlace(n, n', p)
    ensures Takes(n, n', p, m, One(Bears(e, p, m)))
  {
    hide Bears;
    hide Queued;
    QueuedMore(n.events, e, p, m);
  }

  /** A message is handed out, kept for the peer, or dropped. */
  lemma SendMoves(n: Node, q: PeerId, msg: HandlerIn, p: PeerId, m: HandlerIn)
    ensures var sent := SendOrDial(n, q, msg);
            && sent.0.events == n.events
            && multiset(PeerAt(sent.0, p).pending)[m] + One(Bears(Act(sent.1), p, m))
               == multiset(PeerAt(n, p).pending)[m] + One((q, msg) == (p, m))
            && Waits(n, sent.0, p)
  {
    var sent := SendOrDial(n, q, msg);
    if !n.shutting && q == p && !PeerAt(n, p).connected {
      assert PeerAt(sent.0, p).pending == PeerAt(n, p).pending + [msg];
    } else {
      assert PeerAt(sent.0, p).pending == PeerAt(n, p).pending;
    }
  }

  lemma SendTakes(n: Node, q: PeerId, msg: HandlerIn, p: PeerId, m: HandlerIn)
    ensures Takes(n, QueueSend(n, q, msg), p, m, One((q, msg) == (p, m)))
    ensures var sent := SendOrDial(n, q, msg);
            Takes(n, sent.0, p, m, One((q, msg) == (p, m)) - One(Bears(Act(sent.1), p, m)))
  {
    hide Queued;
    hide SendOrDial;
    hide Bears;
    hide PeerAt;
    SendMoves(n, q, msg, p, m);
    var sent := SendOrDial(n, q, msg);
    QueuedMore(sent.0.events, Act(sent.1), p, m);
    SamePeers(sent.0, QueueSend(n, q, msg), p);
  }

  lemma SamePeers(n: Node, n': Node, p: PeerId)
    requires n'.peers == n.peers
    ensures PeerAt(n', p) == PeerAt(n, p)
  {
  }

  // ---------------------------------------------------------------- messages of a peer

  /** A reaction takes or hands out exactly the mails given. */
  ghost predicate Accounts(n: Node, r: Reaction, p: PeerId, m: HandlerIn, mails: seq<Mail>) {
    Takes(n, r.node, p, m, Times(mails, p, m) - Leaves(r.outcome, p, m))
  }

  lemma TimesOne(q: PeerId, msg: HandlerIn, p: PeerId, m: HandlerIn)
    ensures Times([], p, m) == 0 && Times([(q, msg)], p, m) == One((q, msg) == (p, m))
  {
  }

  lemma TimesAppend(a: seq<Mail>, b: seq<Mail>, p: PeerId, m: HandlerIn)
    ensures Times(a + b, p, m) == Times(a, p, m) + Times(b, p, m)
  {
  }

  /** One answer or none is handed out, and at most one announcement queued. */
  lemma PlainAccounts(n: Node, r: Reaction, p: PeerId, m: HandlerIn, mails: seq<Mail>)
    requires SamePlace(n, r.node, p)
    requires r.node.events == n.events
             || exists out: Out :: !out.MsgDropped? && r.node.events == n.events + [Act(Generate(out))]
    requires mails == [] ==> r.outcome.Ready? ==> !r.outcome.action.Notify? && !(r.outcome.action.Generate? && r.outcome.action.out.MsgDropped?)
    requires mails != [] ==> |mails| == 1 && r.outcome == Ready(Notify(mails[0].0, mails[0].1))
    ensures Accounts(n, r, p, m, mails)
  {
    hide Queued;
    if r.node.events == n.events {
      TakesNone(n, r.node, p, m);
    } else {
      var out: Out :| !out.MsgDropped? && r.node.events == n.events + [Act(Generate(out))];
      TakesQueued(n, Act(Generate(out)), r.node, p, m);
    }
    if mails == [] { TimesOne(p, m, p, m); } else { assert mails == [(mails[0].0, mails[0].1)]; TimesOne(mails[0].0, mails[0].1, p, m); }
  }

  lemma LearnAccounts(cfg: Config, n: Node, q: PeerId, t: NodeType, p: PeerId, m: HandlerIn)
    ensures Accounts(n, OnNodeTypeAnswer(cfg, n, q, t), p, m, Replies(cfg, n, q, HandlerOut.NodeTypeAnswer(t, 0)))
  {
    hide Accounts;
    var r := OnNodeTypeAnswer(cfg, n, q, t);
    assert SamePlace(n, r.node, p);
    if PeerAt(n, q).nodeType.None? {
      assert r.node.events == n.events + [Act(Generate(PeerHasNewType(q, t)))];
    }
    PlainAccounts(n, r, p, m, Replies(cfg, n, q, HandlerOut.NodeTypeAnswer(t, 0)));
  }

  /** Queueing what an answer would have handed out. */
  lemma TellAccounts(cfg: Config, n: Node, q: PeerId, t: NodeType, id: nat, p: PeerId, m: HandlerIn)
    ensures Accounts(n, OnNodeTypeRequest(cfg, n, q, t, id), p, m, Replies(cfg, n, q, HandlerOut.NodeTypeRequest(t, id)))
  {
    hide Queued;
    hide Bears;
    hide Held;
    hide OnNodeTypeAnswer;
    hide Wants;
    hide Times;
    var r, r' := OnNodeTypeAnswer(cfg, n, q, t), OnNodeTypeRequest(cfg, n, q, t, id);
    var learned := Replies(cfg, n, q, HandlerOut.NodeTypeAnswer(t, 0));
    var answer := HandlerIn.NodeTypeAnswer(TypeOf(n.role), id);
    LearnAccounts(cfg, n, q, t, p, m);
    if r.outcome.Ready? {
      TakesQueued(r.node, Act(r.outcome.action), r'.node, p, m);
      TakesTrans(n, r.node, r'.node, p, m, Times(learned, p, m) - Leaves(r.outcome, p, m), One(Bears(Act(r.outcome.action), p, m)));
    }
    TimesAppend(learned, [(q, answer)], p, m);
    TimesOne(q, answer, p, m);
    assert Leaves(r'.outcome, p, m) == One((q, answer) == (p, m)) by { NotifyLeaves(q, answer, p, m); }
  }

  lemma NotifyLeaves(q: PeerId, msg: HandlerIn, p: PeerId, m: HandlerIn)
    ensures Leaves(Ready(Notify(q, msg)), p, m) == One((q, msg) == (p, m))
  {
  }

  lemma RequestAccounts(cfg: Config, n: Node, q: PeerId, specs: Specs, id: nat, now: int, p: PeerId, m: HandlerIn)
    ensures Accounts(n, OnManagerRequest(n, q, specs, id, now), p, m, Replies(cfg, n, q, HandlerOut.ManagerRequest(specs, id)))
  {
    hide Accounts;
    var r := OnManagerRequest(n, q, specs, id, now);
    assert SamePlace(n, r.node, p);
    if n.role.Working? {
      assert r.node.events
             == n.events + [Act(Generate(MsgForIncorrectNodeType(q, Substreams.Manager, HandlerOut.ManagerRequest(specs, 0))))];
    } else if PeerAt(n, q).nodeType == Some(Substreams.Worker) {
      assert r.node.events == n.events + [Act(Generate(WorkerNew(q, specs)))];
    }
    PlainAccounts(n, r, p, m, Replies(cfg, n, q, HandlerOut.ManagerRequest(specs, id)));
  }

  lemma SayAndByeAccounts(n: Node, q: PeerId, out: Out, bye: bool, p: PeerId, m: HandlerIn)
    requires !out.MsgDropped?
    ensures Accounts(n, SayAndBye(n, q, out, bye), p, m, if bye then [(q, HandlerIn.ManagerBye(n.nextQuery))] else [])
  {
    hide Accounts;
    PlainAccounts(n, SayAndBye(n, q, out, bye), p, m, if bye then [(q, HandlerIn.ManagerBye(n.nextQuery))] else []);
  }

  lemma AnswerAccounts(cfg: Config, n: Node, q: PeerId, accepted: bool, user: int, now: int, p: PeerId, m: HandlerIn)
    ensures Accounts(n, OnManagerAnswer(cfg, n, q, accepted, user, now), p, m,
                     Replies(cfg, n, q, HandlerOut.ManagerAnswer(accepted, user)))
  {
    hide Accounts;
    hide SayAndBye;
    hide QueueSend;
    var r := OnManagerAnswer(cfg, n, q, accepted, user, now);
    var mails := Replies(cfg, n, q, HandlerOut.ManagerAnswer(accepted, user));
    if WronglyManages(cfg, n, q) {
      var out := WrongOut(cfg, n, q, accepted, user);
      SayAndByeAccounts(n, q, out, accepted, p, m);
      WrongAnswer(cfg, n, q, accepted, user, now);
    } else if n.role.manager.Some? && n.shutting {
      PingAccounts(n, q, p, m);
    } else if n.role.manager.Some? {
      PlainAccounts(n, r, p, m, mails);
    } else if !accepted {
      SayAndByeAccounts(n, q, ManagerRefused(q), false, p, m);
    } else {
      PlainAccounts(n, r, p, m, mails);
    }
  }

  lemma PingAccounts(n: Node, q: PeerId, p: PeerId, m: HandlerIn)
    ensures Accounts(n, Reaction(QueueSend(Counted(n), q, HandlerIn.ManagerPing(n.nextQuery)), Pending), p, m,
                     [(q, HandlerIn.ManagerPing(n.nextQuery))])
  {
    hide QueueSend;
    hide Held;
    SendTakes(Counted(n), q, HandlerIn.ManagerPing(n.nextQuery), p, m);
    TakesNone(n, Counted(n), p, m);
    TakesTrans(n, Counted(n), QueueSend(Counted(n), q, HandlerIn.ManagerPing(n.nextQuery)), p, m,
               0, One((q, HandlerIn.ManagerPing(n.nextQuery)) == (p, m)));
    TimesOne(q, HandlerIn.ManagerPing(n.nextQuery), p, m);
  }

  ghost function WrongOut(cfg: Config, n: Node, q: PeerId, accepted: bool, user: int): Out {
    var answer := HandlerOut.ManagerAnswer(accepted, user);
    if n.role.Managing? then MsgForIncorrectNodeType(q, Substreams.Worker, answer)
    else if PeerAt(n, q).nodeType != Some(Substreams.Manager) then
      MsgFromIncorrectNodeType(q, PeerAt(n, q).nodeType, Substreams.Manager, answer)
    else if n.role.manager.Some? then ManagerAlreadyHasOne(q)
    else if !accepted then ManagerRefused(q)
    else ManagerUnauthorized(q)
  }

  lemma WrongAnswer(cfg: Config, n: Node, q: PeerId, accepted: bool, user: int, now: int)
    requires WronglyManages(cfg, n, q)
    ensures OnManagerAnswer(cfg, n, q, accepted, user, now) == SayAndBye(n, q, WrongOut(cfg, n, q, accepted, user), accepted)
  {
    hide SayAndBye;
  }

  lemma RelatedAccounts(cfg: Config, n: Node, q: PeerId, event: HandlerOut, p: PeerId, m: HandlerIn)
    requires event.ManagerPing? || event.TasksExecute? || event.TasksPing? || event.TasksAbord? || event.TaskStatus?
    ensures Accounts(n, OnRelated(n, q, event), p, m, Replies(cfg, n, q, event))
  {
    hide Accounts;
    PlainAccounts(n, OnRelated(n, q, event), p, m, Replies(cfg, n, q, event));
  }

  lemma ByeAccounts(cfg: Config, n: Node, q: PeerId, id: nat, p: PeerId, m: HandlerIn)
    ensures Accounts(n, OnManagerBye(n, q, id), p, m, Replies(cfg, n, q, HandlerOut.ManagerBye(id)))
  {
    hide Accounts;
    PlainAccounts(n, OnManagerBye(n, q, id), p, m, Replies(cfg, n, q, HandlerOut.ManagerBye(id)));
  }

  lemma RestAccounts(cfg: Config, n: Node, q: PeerId, event: HandlerOut, now: int, p: PeerId, m: HandlerIn)
    requires event.NotMine? || event.ManagerPong? || event.TasksPong? || event.QueryError?
    ensures var n1 := WithPeer(n, q, PeerAt(n, q)); Accounts(n1, OnHandler(cfg, n, q, event, now), p, m, Replies(cfg, n, q, event))
  {
    hide Accounts;
    var n1 := WithPeer(n, q, PeerAt(n, q));
    PlainAccounts(n1, OnHandler(cfg, n, q, event, now), p, m, Replies(cfg, n, q, event));
  }

  lemma SeenReplies(cfg: Config, n: Node, q: PeerId, event: HandlerOut)
    ensures Replies(cfg, WithPeer(n, q, PeerAt(n, q)), q, event) == Replies(cfg, n, q, event)
  {
  }

  lemma HandlerAccounts(cfg: Config, n: Node, q: PeerId, event: HandlerOut, now: int, p: PeerId, m: HandlerIn)
    ensures Accounts(n, OnHandler(cfg, n, q, event, now), p, m, Replies(cfg, n, q, event))
  {
    hide Accounts;
    hide Replies;
    hide OnNodeTypeAnswer;
    hide OnNodeTypeRequest;
    hide OnManagerAnswer;
    hide OnManagerRequest;
    hide OnManagerBye;
    hide OnRelated;
    var n1 := WithPeer(n, q, PeerAt(n, q));
    SeenReplies(cfg, n, q, event);
    var r := OnHandler(cfg, n, q, event, now);
    match event {
    case NodeTypeRequest(t, id) => TellAccounts(cfg, n1, q, t, id, p, m);
    case NodeTypeAnswer(t, user) =>
      LearnAccounts(cfg, n1, q, t, p, m);
      LearnAny(cfg, n1, q, t, user);
    case ManagerRequest(specs, id) => RequestAccounts(cfg, n1, q, specs, id, now, p, m);
    case ManagerAnswer(accepted, user) => AnswerAccounts(cfg, n1, q, accepted, user, now, p, m);
    case ManagerBye(id) => ByeAccounts(cfg, n1, q, id, p, m);
    case NotMine(_) => RestAccounts(cfg, n, q, event, now, p, m);
    case ManagerPong(_) => RestAccounts(cfg, n, q, event, now, p, m);
    case TasksPong(_, _) => RestAccounts(cfg, n, q, event, now, p, m);
    case QueryError(_, _) => RestAccounts(cfg, n, q, event, now, p, m);
    case _ => RelatedAccounts(cfg, n1, q, event, p, m);
    }
    SeenAccounts(n, q, r, p, m, Replies(cfg, n, q, event));
  }

  lemma LearnAny(cfg: Config, n: Node, q: PeerId, t: NodeType, user: int)
    ensures Replies(cfg, n, q, HandlerOut.NodeTypeAnswer(t, user)) == Replies(cfg, n, q, HandlerOut.NodeTypeAnswer(t, 0))
  {
  }

  /** A record made for a peer seen the first time holds nothing. */
  lemma SeenAccounts(n: Node, q: PeerId, r: Reaction, p: PeerId, m: HandlerIn, mails: seq<Mail>)
    requires Accounts(WithPeer(n, q, PeerAt(n, q)), r, p, m, mails)
    ensures Accounts(n, r, p, m, mails)
  {
    hide Held;
    hide Times;
    hide Leaves;
    var n1 := WithPeer(n, q, PeerAt(n, q));
    TakesNone(n, n1, p, m);
    TakesTrans(n, n1, r.node, p, m, 0, Times(mails, p, m) - Leaves(r.outcome, p, m));
  }

  // ---------------------------------------------------------------- time

  lemma VerdictTakes(n: Node, q: PeerId, verdict: Verdict, p: PeerId, m: HandlerIn)
    ensures var n' := OnVerdict(n, q, verdict).node;
            var msg := if verdict.TimedOut? then HandlerIn.ManagerBye(n.nextQuery) else HandlerIn.ManagerPing(n.nextQuery);
            && Takes(n, n', p, m, if verdict.Continuing? then 0 else One((q, msg) == (p, m)))
            && n'.nextQuery == n.nextQuery + (if verdict.Continuing? then 0 else 1)
  {
    hide Queued;
    hide Held;
    hide QueueSend;
    if verdict.Continuing? {
      TakesNone(n, n, p, m);
    } else {
      var msg := if verdict.TimedOut? then HandlerIn.ManagerBye(n.nextQuery) else HandlerIn.ManagerPing(n.nextQuery);
      var n1, n' := QueueSend(Counted(n), q, msg), OnVerdict(n, q, verdict).node;
      TakesNone(n, Counted(n), p, m);
      SendTakes(Counted(n), q, msg, p, m);
      SendCounts(Counted(n), q, msg);
      TakesTrans(n, Counted(n), n1, p, m, 0, One((q, msg) == (p, m)));
      if verdict.TimedOut? && Holds(n1.role, q) {
        var out := if n1.role.Working? then ManagerTimedOut(q) else WorkerTimedOut(q);
        SamePeers(n1, n', p);
        TakesQueued(n1, Act(Generate(out)), n', p, m);
        TakesTrans(n, n1, n', p, m, One((q, msg) == (p, m)), 0);
      }
    }
  }

  lemma SendCounts(n: Node, q: PeerId, msg: HandlerIn)
    ensures QueueSend(n, q, msg).nextQuery == n.nextQuery && QueueSend(n, q, msg).role == n.role
    ensures QueueSend(n, q, msg).shutting == n.shutting
  {
  }

  lemma VerdictOf(cfg: Config, link: Link, now: int)
    ensures Check(cfg, link, now)
            == if GivenUp(cfg, link, now) then Verdict.TimedOut else if WantsPing(cfg, link, now) then MustPing else Continuing
  {
  }

  lemma {:induction false} VerdictsTake(cfg: Config, n: Node, workers: map<PeerId, Link>, order: seq<PeerId>, now: int, p: PeerId, m: HandlerIn)
    requires n.role.Managing? && (forall q | q in order :: q in workers && q in n.role.workers)
    requires forall i, j | 0 <= i < j < |order| :: order[i] != order[j]
    ensures var n' := OnVerdicts(n, Verdicts(cfg, workers, order, now)).node;
            var given := LinksGive(cfg, workers, order, now, n.nextQuery);
            Takes(n, n', p, m, Times(given, p, m)) && n'.nextQuery == n.nextQuery + |given|
  {
    hide OnVerdict;
    hide Check;
    hide Held;
    hide GivenUp;
    hide WantsPing;
    hide Times;
    if order == [] {
      TakesNone(n, n, p, m);
      TimesOne(p, m, p, m);
    } else {
      var front, last := order[..|order| - 1], order[|order| - 1];
      var verdict := Check(cfg, workers[last], now);
      var r := OnVerdicts(n, Verdicts(cfg, workers, front, now));
      var given := LinksGive(cfg, workers, front, now, n.nextQuery);
      VerdictsTake(cfg, n, workers, front, now, p, m);
      VerdictsRemove(cfg, n, workers, front, now);
      VerdictOf(cfg, workers[last], now);
      MoreVerdicts(n, Verdicts(cfg, workers, front, now), last, verdict);
      VerdictMore(n, r.node, last, verdict, given, p, m);
      hide LinksGive;
      assert order == front + [last];
      GiveMore(cfg, workers, front, last, now, n.nextQuery);
      NothingMore(r.node, last);
    }
  }

  lemma NothingMore(n: Node, q: PeerId)
    ensures OnVerdict(n, q, Continuing).node == n
  {
  }

  ghost function VerdictGives(q: PeerId, verdict: Verdict, number: nat): seq<Mail> {
    match verdict
    case TimedOut => [(q, HandlerIn.ManagerBye(number))]
    case MustPing => [(q, HandlerIn.ManagerPing(number))]
    case Continuing => []
  }

  lemma GiveMore(cfg: Config, links: map<PeerId, Link>, front: seq<PeerId>, last: PeerId, now: int, number: nat)
    requires last in links && forall p | p in front :: p in links
    ensures var given := LinksGive(cfg, links, front, now, number);
            LinksGive(cfg, links, front + [last], now, number)
            == given + VerdictGives(last, Check(cfg, links[last], now), number + |given|)
  {
    hide GivenUp;
    hide WantsPing;
    hide Check;
    VerdictOf(cfg, links[last], now);
    assert (front + [last])[..|front|] == front;
  }

  lemma VerdictMore(n: Node, n1: Node, q: PeerId, verdict: Verdict, given: seq<Mail>, p: PeerId, m: HandlerIn)
    requires Takes(n, n1, p, m, Times(given, p, m)) && n1.nextQuery == n.nextQuery + |given|
    ensures var n2, more := OnVerdict(n1, q, verdict).node, VerdictGives(q, verdict, n1.nextQuery);
            Takes(n, n2, p, m, Times(given + more, p, m)) && n2.nextQuery == n.nextQuery + |given + more|
  {
    hide OnVerdict;
    hide Takes;
    hide Times;
    var n2, more := OnVerdict(n1, q, verdict).node, VerdictGives(q, verdict, n1.nextQuery);
    VerdictTakes(n1, q, verdict, p, m);
    TimesAppend(given, more, p, m);
    var msg := if verdict.TimedOut? then HandlerIn.ManagerBye(n1.nextQuery) else HandlerIn.ManagerPing(n1.nextQuery);
    TimesOne(q, msg, p, m);
    TakesTrans(n, n1, n2, p, m, Times(given, p, m), Times(more, p, m));
  }

  lemma TimersTake(cfg: Config, n: Node, order: seq<PeerId>, now: int, p: PeerId, m: HandlerIn)
    requires n.role.Managing? ==> Iterates(order, n.role.workers)
    ensures Takes(n, Timers(cfg, n, order, now).node, p, m, Times(TimersGive(cfg, n, order, now), p, m))
  {
    hide OnVerdict;
    hide OnVerdicts;
    hide Check;
    hide Held;
    hide Times;
    hide GivenUp;
    hide WantsPing;
    TimesOne(p, m, p, m);
    TakesNone(n, n, p, m);
    if !n.shutting && n.role.Managing? {
      var workers := n.role.workers;
      var n1 := n.(role := Managing(map q | q in workers :: Checked(cfg, workers[q], now)));
      TakesNone(n, n1, p, m);
      VerdictsTake(cfg, n1, workers, order, now, p, m);
      TakesTrans(n, n1, Timers(cfg, n, order, now).node, p, m, 0, Times(TimersGive(cfg, n, order, now), p, m));
    } else if !n.shutting && n.role.manager.Some? {
      var (q, link) := n.role.manager.value;
      var n1 := n.(role := Working(Some((q, Checked(cfg, link, now)))));
      TakesNone(n, n1, p, m);
      VerdictOf(cfg, link, now);
      VerdictTakes(n1, q, Check(cfg, link, now), p, m);
      OneLink(cfg, q, link, now, n.nextQuery, p, m);
      TakesTrans(n, n1, Timers(cfg, n, order, now).node, p, m, 0, Times(TimersGive(cfg, n, order, now), p, m));
    }
  }

  lemma OneLink(cfg: Config, q: PeerId, link: Link, now: int, number: nat, p: PeerId, m: HandlerIn)
    ensures LinksGive(cfg, map[q := link], [q], now, number)
            == if GivenUp(cfg, link, now) then [(q, HandlerIn.ManagerBye(number))]
               else if WantsPing(cfg, link, now) then [(q, HandlerIn.ManagerPing(number))] else []
    ensures forall msg :: Times([(q, msg)], p, m) == One((q, msg) == (p, m))
  {
    hide GivenUp;
    hide WantsPing;
    assert [q][..0] == [];
    forall msg ensures Times([(q, msg)], p, m) == One((q, msg) == (p, m)) { TimesOne(q, msg, p, m); }
  }

  // ---------------------------------------------------------------- orders

  lemma {:induction false} ByesTake(n: Node, peers: seq<PeerId>, p: PeerId, m: HandlerIn)
    ensures Takes(n, ByeEach(n, peers), p, m, Times(Byes(peers, n.nextQuery), p, m))
    ensures ByeEach(n, peers).nextQuery == n.nextQuery + |peers|
  {
    hide Held;
    hide Times;
    hide QueueSend;
    if peers == [] {
      TakesNone(n, n, p, m);
      TimesOne(p, m, p, m);
    } else {
      var front, last := peers[..|peers| - 1], peers[|peers| - 1];
      ByesTake(n, front, p, m);
      var n1 := ByeEach(n, front);
      var msg := HandlerIn.ManagerBye(n1.nextQuery);
      TakesNone(n1, Counted(n1), p, m);
      SendTakes(Counted(n1), last, msg, p, m);
      SendCounts(Counted(n1), last, msg);
      TakesTrans(n, n1, Counted(n1), p, m, Times(Byes(front, n.nextQuery), p, m), 0);
      TakesTrans(n, Counted(n1), ByeEach(n, peers), p, m, Times(Byes(front, n.nextQuery), p, m), One((last, msg) == (p, m)));
      assert Byes(peers, n.nextQuery) == Byes(front, n.nextQuery) + [(last, msg)];
      TimesAppend(Byes(front, n.nextQuery), [(last, msg)], p, m);
      TimesOne(last, msg, p, m);
    }
  }

  /** Orders that send one message at once or when the peer connects. */
  lemma OrderSends(n: Node, o: Order, order: seq<PeerId>, q: PeerId, msg: HandlerIn)
    requires OrderGives(n, o, order) == [(q, msg)] && (o.Execute? || o.AskTasks? || o.Advertise?)
    ensures OnOrder(n, o, order) == QueueSend(Counted(n), q, msg)
  {
  }

  lemma OrderTakes(n: Node, o: Order, order: seq<PeerId>, p: PeerId, m: HandlerIn)
    ensures Takes(n, OnOrder(n, o, order), p, m, Times(OrderGives(n, o, order), p, m))
  {
    hide Held;
    hide Times;
    hide QueueSend;
    hide ByeEach;
    hide Byes;
    var n', mails := OnOrder(n, o, order), OrderGives(n, o, order);
    TimesOne(p, m, p, m);
    if o.Bye? {
      var peers := if n.role.Managing? then order else if n.role.manager.Some? then [n.role.manager.value.0] else [];
      var n1 := if n.role.Managing? then n else n.(role := Working(None));
      TakesNone(n, n1, p, m);
      ByesTake(n1, peers, p, m);
      TakesNone(ByeEach(n1, peers), n', p, m);
      TakesTrans(n, n1, ByeEach(n1, peers), p, m, 0, Times(mails, p, m));
      TakesTrans(n, ByeEach(n1, peers), n', p, m, Times(mails, p, m), 0);
    } else if mails == [] {
      TakesQueued(n, n'.events[|n.events|], n', p, m);
    } else {
      var (q, msg) := mails[0];
      assert mails == [(q, msg)];
      TimesOne(q, msg, p, m);
      if o.ToHandler? || o.AnswerTasks? {
        TakesQueued(n, Act(Sendable(n, q, msg)), n', p, m);
      } else {
        OrderSends(n, o, order, q, msg);
        TakesNone(n, Counted(n), p, m);
        SendTakes(Counted(n), q, msg, p, m);
        TakesTrans(n, Counted(n), n', p, m, 0, One((q, msg) == (p, m)));
      }
    }
  }

  // ---------------------------------------------------------------- connections

  function Sends(q: PeerId, msgs: seq<HandlerIn>): seq<Internal> {
    seq(|msgs|, i requires 0 <= i < |msgs| => SendMessage(q, msgs[i]))
  }

  lemma {:induction false} SendsQueued(q: PeerId, msgs: seq<HandlerIn>, p: PeerId, m: HandlerIn)
    ensures Queued(Sends(q, msgs), p, m) == if q == p then multiset(msgs)[m] else 0
  {
    if msgs != [] {
      var front := msgs[..|msgs| - 1];
      SendsQueued(q, front, p, m);
      assert Sends(q, msgs)[..|msgs| - 1] == Sends(q, front);
      assert msgs == front + [msgs[|msgs| - 1]];
    }
  }

  /**
   When a peer connects, the messages that waited for it are queued in the order they were given, after the
   question for its type and ahead of the announcement, and none waits any more.
   */
  lemma ConnectedQueues(cfg: Config, s: System, p: PeerId)
    requires !s.stopped
    ensures var n, n' := s.node, AfterStep(cfg, s, Connected(p)).node;
            var peer, asks := PeerAt(s.node, p), One(PeerAt(s.node, p).nodeType.None?);
            && n'.peers == n.peers[p := peer.(connected := true, pending := [])]
            && |n'.events| == |n.events| + asks + |peer.pending| + 1 && n.events <= n'.events
            && (asks == 1 ==> n'.events[|n.events|] == AskNodeType(p))
            && (forall i | 0 <= i < |peer.pending| :: n'.events[|n.events| + asks + i] == SendMessage(p, peer.pending[i]))
            && n'.events[|n'.events| - 1] == Act(Generate(PeerConnected(p)))
  {
  }

  lemma ConnectedHolds(n: Node, q: PeerId, p: PeerId, m: HandlerIn)
    ensures Held(OnConnected(n, q), p, m) == Held(n, p, m)
    ensures p != q ==> PeerAt(OnConnected(n, q), p) == PeerAt(n, p)
  {
    hide Queued;
    hide Bears;
    var peer := PeerAt(n, q);
    var sends := Sends(q, peer.pending);
    var asked := if peer.nodeType.None? then n.events + [AskNodeType(q)] else n.events;
    var n' := OnConnected(n, q);
    assert n'.events == asked + sends + [Act(Generate(PeerConnected(q)))];
    QueuedMore(asked + sends, Act(Generate(PeerConnected(q))), p, m);
    QueuedAppend(asked, sends, p, m);
    QueuedMore(n.events, AskNodeType(q), p, m);
    SendsQueued(q, peer.pending, p, m);
    NoMail(q, p, m);
  }

  lemma NoMail(q: PeerId, p: PeerId, m: HandlerIn)
    ensures !Bears(AskNodeType(q), p, m) && !Bears(Act(Generate(PeerConnected(q))), p, m)
  {
  }

  // ---------------------------------------------------------------- steps and runs

  ghost function StepGives(cfg: Config, s: System, step: SystemStep): seq<Mail> {
    if s.stopped then []
    else match step
      case PollTurn(_) => TurnGives(cfg, s.node)
      case PollTimers(order, now) =>
        if s.node.role.Managing? && !Iterates(order, s.node.role.workers) then [] else TimersGive(cfg, s.node, order, now)
      case Ordered(o, order) => OrderGives(s.node, o, order)
      case _ => []
  }

  /** The outcome of a turn; other steps return nothing. */
  function StepReturns(cfg: Config, s: System, step: SystemStep): Outcome {
    if !s.stopped && step.PollTurn? && s.node.events != [] then Next(cfg, s.node, step.now).outcome else Pending
  }

  lemma TurnAccounts(cfg: Config, n: Node, now: int, p: PeerId, m: HandlerIn)
    requires n.events != []
    ensures var r := Next(cfg, n, now);
            && Held(r.node, p, m) + Leaves(r.outcome, p, m) == Held(n, p, m) + Times(TurnGives(cfg, n), p, m)
            && Waits(n, r.node, p)
  {
    hide Queued;
    hide OnInternal;
    hide TurnGives;
    hide Times;
    hide Leaves;
    hide PeerAt;
    hide Bears;
    var head, base := n.events[0], n.(events := n.events[1..]);
    QueuedFirst(n.events, p, m);
    SamePeers(n, base, p);
    InternalAccounts(cfg, n, base, head, now, p, m);
  }

  lemma InternalAccounts(cfg: Config, n: Node, base: Node, e: Internal, now: int, p: PeerId, m: HandlerIn)
    requires n.events != [] && n.events[0] == e && base == n.(events := n.events[1..])
    ensures var r := OnInternal(cfg, base, e, now);
            Takes(base, r.node, p, m, One(Bears(e, p, m)) + Times(TurnGives(cfg, n), p, m) - Leaves(r.outcome, p, m))
  {
    hide Held;
    hide OnHandler;
    hide Replies;
    hide Times;
    hide SendOrDial;
    TimesOne(p, m, p, m);
    match e
    case FromHandler(q, event) =>
      HandlerAccounts(cfg, base, q, event, now, p, m);
      RepliesQueue(cfg, n, base, q, event);
    case SendMessage(q, msg) => SendTakes(base, q, msg, p, m);
    case AskNodeType(q) =>
      TimesOne(q, HandlerIn.NodeTypeRequest(TypeOf(n.role), n.nextQuery), p, m);
      TakesNone(base, OnInternal(cfg, base, e, now).node, p, m);
    case _ => TakesNone(base, OnInternal(cfg, base, e, now).node, p, m);
  }

  lemma RepliesQueue(cfg: Config, n: Node, base: Node, q: PeerId, event: HandlerOut)
    requires base == n.(events := base.events)
    ensures Replies(cfg, base, q, event) == Replies(cfg, n, q, event)
  {
  }

  /** One step: what is given is held, or handed out, or was there before. */
  lemma StepAccounts(cfg: Config, s: System, step: SystemStep, p: PeerId, m: HandlerIn)
    ensures var s' := AfterStep(cfg, s, step);
            && Held(s'.node, p, m) + Leaves(StepReturns(cfg, s, step), p, m)
               == Held(s.node, p, m) + Times(StepGives(cfg, s, step), p, m)
            && (step != Connected(p) && step != Disconnected(p) ==> Waits(s.node, s'.node, p))
            && (step == Disconnected(p) ==> PeerAt(s'.node, p).pending == PeerAt(s.node, p).pending)
  {
    hide Held;
    hide Times;
    hide TurnGives;
    hide TimersGive;
    hide OrderGives;
    hide Iterates;
    hide Timers;
    hide OnOrder;
    hide OnConnected;
    hide OnDisconnected;
    hide Next;
    TimesOne(p, m, p, m);
    if !s.stopped {
      match step
      case PollTurn(now) =>
        if s.node.events != [] { TurnAccounts(cfg, s.node, now, p, m); } else { NoTurn(cfg, s.node); }
      case PollTimers(order, now) =>
        if !s.node.role.Managing? || Iterates(order, s.node.role.workers) { TimersTake(cfg, s.node, order, now, p, m); }
      case Deliver(q, event) => PlainTakes(s.node, FromHandler(q, event), p, m);
      case Discover(q, address) => PlainTakes(s.node, Mdns(q, address), p, m);
      case Connected(q) => ConnectedHolds(s.node, q, p, m);
      case Disconnected(q) => DisconnectedHolds(s.node, q, p, m);
      case Ordered(o, order) => OrderTakes(s.node, o, order, p, m);
    }
  }

  lemma NoTurn(cfg: Config, n: Node)
    requires n.events == []
    ensures TurnGives(cfg, n) == []
  {
  }

  lemma PlainTakes(n: Node, e: Internal, p: PeerId, m: HandlerIn)
    requires e.FromHandler? || e.Mdns?
    ensures Takes(n, Queue(n, e), p, m, 0)
  {
    hide Held;
    TakesQueued(n, e, Queue(n, e), p, m);
  }

  lemma DisconnectedHolds(n: Node, q: PeerId, p: PeerId, m: HandlerIn)
    ensures var n' := OnDisconnected(n, q).node;
            Held(n', p, m) == Held(n, p, m) && PeerAt(n', p).pending == PeerAt(n, p).pending && (p != q ==> Waits(n, n', p))
  {
    hide Queued;
    if q in n.peers { QueuedMore(n.events, Act(Generate(PeerDisconnected(q))), p, m); }
  }

  /** How often the message was given, and how often it left, over a run. */
  ghost function Given(cfg: Config, role: Role, steps: seq<SystemStep>, p: PeerId, m: HandlerIn): nat {
    if steps == [] then 0
    else
      var k := |steps| - 1;
      Given(cfg, role, steps[..k], p, m) + Times(StepGives(cfg, AfterRun(cfg, role, steps[..k]), steps[k]), p, m)
  }

  ghost function Left(cfg: Config, role: Role, steps: seq<SystemStep>, p: PeerId, m: HandlerIn): nat {
    if steps == [] then 0
    else
      var k := |steps| - 1;
      Left(cfg, role, steps[..k], p, m) + Leaves(StepReturns(cfg, AfterRun(cfg, role, steps[..k]), steps[k]), p, m)
  }

  /**
   Over every run, a message given for a peer is in exactly one place: handed out or reported as dropped, in
   the queue, or waiting for the peer to connect.
   */
  lemma {:induction false} RunAccounts(cfg: Config, role: Role, steps: seq<SystemStep>, p: PeerId, m: HandlerIn)
    ensures Given(cfg, role, steps, p, m) == Left(cfg, role, steps, p, m) + Held(AfterRun(cfg, role, steps).node, p, m)
  {
    hide AfterStep;
    hide StepGives;
    hide StepReturns;
    if steps != [] {
      var k := |steps| - 1;
      RunAccounts(cfg, role, steps[..k], p, m);
      StepAccounts(cfg, AfterRun(cfg, role, steps[..k]), steps[k], p, m);
    }
  }

  /** Whether the last end or start of a connection with `p`, while the node ran, was a start. */
  ghost function Linked(cfg: Config, role: Role, steps: seq<SystemStep>, p: PeerId): bool {
    if steps == [] then false
    else
      var k := |steps| - 1;
      var before := Linked(cfg, role, steps[..k], p);
      if AfterRun(cfg, role, steps[..k]).stopped then before
      else if steps[k] == Connected(p) then true
      else if steps[k] == Disconnected(p) then false
      else before
  }

  /** Over every run a node knows which of its peers are connected. */
  lemma {:induction false} RunLinks(cfg: Config, role: Role, steps: seq<SystemStep>, p: PeerId)
    ensures PeerAt(AfterRun(cfg, role, steps).node, p).connected <==> Linked(cfg, role, steps, p)
  {
    hide AfterStep;
    if steps != [] {
      var k := |steps| - 1;
      RunLinks(cfg, role, steps[..k], p);
      StepLinks(cfg, AfterRun(cfg, role, steps[..k]), steps[k], p);
    }
  }

  lemma StepLinks(cfg: Config, s: System, step: SystemStep, p: PeerId)
    ensures PeerAt(AfterStep(cfg, s, step).node, p).connected
            <==> if s.stopped then PeerAt(s.node, p).connected
                 else if step == Connected(p) then true
                 else if step == Disconnected(p) then false
                 else PeerAt(s.node, p).connected
  {
    if s.stopped {
    } else if step == Connected(p) {
      ConnectedQueues(cfg, s, p);
    } else if step == Disconnected(p) {
    } else {
      hide AfterStep;
      StepAccounts(cfg, s, step, p, HandlerIn.Ack(0));
    }
  }

  /**
   Where a message goes: to a peer that is connected at once, to one that is not when it connects, for which
   it is dialled; it is dropped, and reported, exactly when the node is shutting down.
   */
  ghost predicate Placed(n: Node, n': Node, action: Action, p: PeerId, m: HandlerIn) {
    if n.shutting then action == Generate(MsgDropped(p, m)) && n'.peers == n.peers
    else if PeerAt(n, p).connected then action == Notify(p, m) && SamePlace(n, n', p)
    else action == Dial(p) && PeerAt(n', p).pending == PeerAt(n, p).pending + [m]
  }

  /** Tasks, questions and statuses ordered by the rest of the program. */
  lemma OrderPlaced(n: Node, o: Order, order: seq<PeerId>)
    requires (o.Execute? || o.AskTasks? || o.Advertise?) && OrderGives(n, o, order) != []
    ensures var n', mail := OnOrder(n, o, order), OrderGives(n, o, order)[0];
            exists action :: n'.events == n.events + [Act(action)] && Placed(n, n', action, mail.0, mail.1)
  {
    var n', mail := OnOrder(n, o, order), OrderGives(n, o, order)[0];
    var action := n'.events[|n.events|].action;
    assert n'.events == n.events + [Act(action)];
  }

  /** Messages queued when their peer connected: it may have gone meanwhile. */
  lemma TurnPlaced(cfg: Config, n: Node, now: int)
    requires n.events != [] && n.events[0].SendMessage?
    ensures var r := Next(cfg, n, now);
            r.outcome.Ready? && Placed(n, r.node, r.outcome.action, n.events[0].peer, n.events[0].msg)
  {
  }

  // ---------------------------------------------------------------- shutting down

  /** Whether the node was told to shut down while it ran. */
  ghost predicate Told(cfg: Config, role: Role, steps: seq<SystemStep>) {
    exists k :: 0 <= k < |steps| && TellsBye(steps[k]) && !AfterRun(cfg, role, steps[..k]).stopped
  }

  predicate TellsBye(step: SystemStep) {
    step.Ordered? && step.o.Bye?
  }

  lemma HandlerCalm(cfg: Config, n: Node, p: PeerId, event: HandlerOut, now: int)
    ensures OnHandler(cfg, n, p, event, now).node.shutting == n.shutting
  {
  }

  lemma TurnCalm(cfg: Config, n: Node, now: int)
    requires n.events != []
    ensures Next(cfg, n, now).node.shutting == n.shutting
  {
    hide OnHandler;
    if n.events[0].FromHandler? { HandlerCalm(cfg, n.(events := n.events[1..]), n.events[0].peer, n.events[0].event, now); }
  }

  lemma {:induction false} VerdictsCalm(n: Node, verdicts: seq<(PeerId, Verdict)>)
    ensures OnVerdicts(n, verdicts).node.shutting == n.shutting
  {
    if verdicts != [] { VerdictsCalm(n, verdicts[..|verdicts| - 1]); }
  }

  lemma TimersCalm(cfg: Config, n: Node, order: seq<PeerId>, now: int)
    requires n.role.Managing? ==> forall p | p in order :: p in n.role.workers
    ensures Timers(cfg, n, order, now).node.shutting == n.shutting
  {
    hide OnVerdicts;
    hide Check;
    if !n.shutting && n.role.Managing? {
      VerdictsCalm(n.(role := Managing(map p | p in n.role.workers :: Checked(cfg, n.role.workers[p], now))),
                   Verdicts(cfg, n.role.workers, order, now));
    }
  }

  lemma OrderShuts(n: Node, o: Order, order: seq<PeerId>)
    ensures OnOrder(n, o, order).shutting == (n.shutting || o.Bye?)
  {
    hide ByeEach;
  }

  lemma StepShuts(cfg: Config, s: System, step: SystemStep)
    ensures AfterStep(cfg, s, step).node.shutting == (s.node.shutting || (!s.stopped && TellsBye(step)))
  {
    hide Next;
    hide Timers;
    hide OnOrder;
    if !s.stopped {
      match step
      case PollTurn(now) => if s.node.events != [] { TurnCalm(cfg, s.node, now); }
      case PollTimers(order, now) =>
        if !s.node.role.Managing? || Iterates(order, s.node.role.workers) { TimersCalm(cfg, s.node, order, now); }
      case Ordered(o, order) => OrderShuts(s.node, o, order);
      case _ =>
    }
  }

  /** Over every run a node is shutting down exactly when it was told to; so from then on it drops what it is ordered to send. */
  lemma {:induction false} RunShuts(cfg: Config, role: Role, steps: seq<SystemStep>)
    ensures AfterRun(cfg, role, steps).node.shutting <==> Told(cfg, role, steps)
  {
    hide AfterStep;
    if steps != [] {
      var n := |steps| - 1;
      RunShuts(cfg, role, steps[..n]);
      StepShuts(cfg, AfterRun(cfg, role, steps[..n]), steps[n]);
      if Told(cfg, role, steps[..n]) {
        var k :| 0 <= k < n && TellsBye(steps[..n][k]) && !AfterRun(cfg, role, steps[..n][..k]).stopped;
        assert steps[..n][..k] == steps[..k] && TellsBye(steps[k]);
      }
      if Told(cfg, role, steps) {
        var k :| 0 <= k < |steps| && TellsBye(steps[k]) && !AfterRun(cfg, role, steps[..k]).stopped;
        if k < n { assert steps[..n][..k] == steps[..k] && TellsBye(steps[..n][k]); }
      }
    }
  }

  /** A worker told to shut down has no manager any more, a manager keeps its workers; each of them is told goodbye. */
  lemma ByeLeaves(n: Node, order: seq<PeerId>)
    ensures OnOrder(n, Order.Bye, order).role == if n.role.Managing? then n.role else Working(None)
  {
    ByesRole(n, order);
    if n.role.Working? && n.role.manager.Some? { ByesRole(n.(role := Working(None)), [n.role.manager.value.0]); }
  }

  lemma {:induction false} ByesRole(n: Node, peers: seq<PeerId>)
    ensures ByeEach(n, peers).role == n.role
  {
    if peers != [] { ByesRole(n, peers[..|peers| - 1]); }
  }

  // ---------------------------------------------------------------- discovery

  /** A peer discovered is dialled the first time only, and every address is kept. */
  lemma DiscoveryDials(cfg: Config, n: Node, now: int)
    requires n.events != [] && n.events[0].Mdns?
    ensures var r, p := Next(cfg, n, now), n.events[0].peer;
            && (r.outcome == Ready(Dial(p)) <==> !PeerAt(n, p).dialed) && (PeerAt(n, p).dialed ==> r.outcome.Pending?)
            && PeerAt(r.node, p) == PeerAt(n, p).(dialed := true, addrs := PeerAt(n, p).addrs + {n.events[0].address})
  {
  }
}

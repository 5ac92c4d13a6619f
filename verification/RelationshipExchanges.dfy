/** Exchanges of two nodes: pings and their answers, and how a relationship starts. */
module RelationshipExchanges {
  import opened Base
  import opened Relationship
  import Substreams
  import Handler
  import RelationshipRuns

  // ---------------------------------------------------------------- time-outs

  /**
   A poll gives up exactly the workers that left a ping unanswered for the time-out, pings exactly
   those silent and not pinged for the interval, and changes nothing else about its workers.
   */
  lemma TimersExact(cfg: Config, n: Node, order: seq<PeerId>, now: int)
    requires n.role.Managing? && !n.shutting && Iterates(order, n.role.workers)
    ensures var after := Timers(cfg, n, order, now).node.role;
            && after.Managing?
            && (forall p :: p in after.workers <==>
                  p in n.role.workers
                  && !(n.role.workers[p].lastPong < n.role.workers[p].lastPing
                       && now >= n.role.workers[p].lastPong + cfg.timeout))
            && (forall p | p in after.workers ::
                  && after.workers[p].lastPong == n.role.workers[p].lastPong
                  && after.workers[p].lastPing ==
                     if now > n.role.workers[p].lastPong + cfg.interval && now > n.role.workers[p].lastPing + cfg.interval
                     then now else n.role.workers[p].lastPing)
  {
    var workers := n.role.workers;
    var n1 := n.(role := Managing(map p | p in workers :: Checked(cfg, workers[p], now)));
    VerdictsRemove(cfg, n1, workers, order, now);
  }

  // ---------------------------------------------------------------- a ping and its answer

  /** Node `b` handles the ping of `pa`, on its inbound substream `id`. */
  function Pinged(cfg: Config, b: Node, pa: PeerId, id: nat, user: nat, now: int): Reaction {
    var ping := Substreams.ProcessRequest(Handler.MessageOf(HandlerIn.ManagerPing(user)), id);
    if ping.None? then Reaction(b, Pending) else OnHandler(cfg, b, pa, ping.value, now)
  }

  /** Node `a` handles what `pb` answered to its query `user`. */
  function Answered(cfg: Config, a: Node, pb: PeerId, answer: HandlerIn, user: nat, now: int): Reaction {
    var event := Substreams.ProcessAnswer(Handler.MessageOf(answer), user);
    if event.None? then Reaction(a, Pending) else OnHandler(cfg, a, pb, event.value, now)
  }

  /**
   A ping of `a` to `b` and its answer, whatever else the two nodes did in between: `a` is the state
   in which the answer arrives. Afterwards `a` holds the relationship exactly when both did, and
   `b` as before. So a one-sided relationship of `a` ends, and a mutual one goes on and is renewed.
   */
  lemma PingSettles(cfgA: Config, cfgB: Config, a: Node, b: Node, pa: PeerId, pb: PeerId, id: nat, user: nat, now: int)
    ensures var rb := Pinged(cfgB, b, pa, id, user, now);
            && rb.outcome.Ready? && rb.outcome.action.Notify? && rb.outcome.action.peer == pa
            && var answer := rb.outcome.action.msg;
               answer.IsAnswer() && answer.requestId == id
               && var ra := Answered(cfgA, a, pb, answer, user, now);
                  && !ra.outcome.Stopped? && rb.node.role == b.role
                  && (Holds(ra.node.role, pb) <==> Holds(a.role, pb) && Holds(b.role, pa))
                  && (Holds(a.role, pb) && !Holds(b.role, pa) ==>
                        ra.node.role == Broken(a.role, pb)
                        && ra.outcome == Ready(Generate(if a.role.Working? then ManagerBye(pb) else WorkerBye(pb))))
                  && (Holds(a.role, pb) && Holds(b.role, pa) ==> ra.node.role == Renewed(a.role, pb, now))
                  && (!Holds(a.role, pb) ==> ra.node.role == a.role)
  {
    hide OnHandler;
    PingHandled(cfgB, b, pa, id, user, now);
    if Holds(b.role, pa) { PongHandled(cfgA, a, pb, id, user, now); } else { RefusalHandled(cfgA, a, pb, id, user, now); }
  }

  lemma PingHandled(cfg: Config, b: Node, pa: PeerId, id: nat, user: nat, now: int)
    ensures var r := Pinged(cfg, b, pa, id, user, now);
            && r.node.role == b.role
            && r.outcome == Ready(Notify(pa, if Holds(b.role, pa) then HandlerIn.ManagerPong(id) else HandlerIn.NotMine(id)))
  {
  }

  lemma PongHandled(cfg: Config, a: Node, pb: PeerId, id: nat, user: nat, now: int)
    ensures var r := Answered(cfg, a, pb, HandlerIn.ManagerPong(id), user, now);
            && !r.outcome.Stopped?
            && r.node.role == if Holds(a.role, pb) then Renewed(a.role, pb, now) else a.role
  {
  }

  lemma RefusalHandled(cfg: Config, a: Node, pb: PeerId, id: nat, user: nat, now: int)
    ensures var r := Answered(cfg, a, pb, HandlerIn.NotMine(id), user, now);
            && !r.outcome.Stopped? && r.node.role == Broken(a.role, pb) && !Holds(r.node.role, pb)
            && (Holds(a.role, pb) ==>
                  r.outcome == Ready(Generate(if a.role.Working? then ManagerBye(pb) else WorkerBye(pb))))
  {
  }

  ghost function Renewed(role: Role, p: PeerId, now: int): Role
    requires Holds(role, p)
  {
    match role
    case Managing(workers) => Managing(workers[p := Link(workers[p].lastPing, now)])
    case Working(manager) => Working(Some((p, Link(manager.value.1.lastPing, now))))
  }

  // ---------------------------------------------------------------- starting a relationship

  /** Whoever a node is in a relationship with is known to be of the other type. */
  ghost predicate TypesKnown(n: Node) {
    forall p | Holds(n.role, p) :: PeerAt(n, p).nodeType == Some(OtherType(n.role))
  }

  function OtherType(role: Role): NodeType {
    if role.Managing? then Substreams.Worker else Substreams.Manager
  }

  /** No node type is ever forgotten or changed, and new relationships are with peers of the other type. */
  ghost predicate TypesKept(n: Node, n': Node) {
    && (n'.role.Managing? <==> n.role.Managing?)
    && (forall p | PeerAt(n, p).nodeType.Some? :: PeerAt(n', p).nodeType == PeerAt(n, p).nodeType)
    && (forall p | Holds(n'.role, p) && !Holds(n.role, p) :: PeerAt(n', p).nodeType == Some(OtherType(n.role)))
  }

  lemma TypesTrans(n: Node, n1: Node, n2: Node)
    requires TypesKept(n, n1) && TypesKept(n1, n2)
    ensures TypesKept(n, n2)
  {
  }

  lemma TypesSame(n: Node, n': Node)
    requires n'.peers == n.peers && n'.role == n.role
    ensures TypesKept(n, n')
  {
  }

  /** Peers keep their type, and no relationship is new. */
  lemma TypesFewer(n: Node, n': Node)
    requires (n'.role.Managing? <==> n.role.Managing?) && forall p :: PeerAt(n', p).nodeType == PeerAt(n, p).nodeType
    requires forall p | Holds(n'.role, p) :: Holds(n.role, p)
    ensures TypesKept(n, n')
  {
  }

  lemma SendTypes(n: Node, p: PeerId, msg: HandlerIn)
    ensures TypesKept(n, QueueSend(n, p, msg)) && TypesKept(n, SendOrDial(n, p, msg).0)
  {
    TypesFewer(n, QueueSend(n, p, msg));
    TypesFewer(n, SendOrDial(n, p, msg).0);
  }

  lemma HandlerTypes(cfg: Config, n: Node, p: PeerId, event: HandlerOut, now: int)
    ensures TypesKept(n, OnHandler(cfg, n, p, event, now).node)
  {
    hide TypesKept;
    var n1 := WithPeer(n, p, PeerAt(n, p));
    TypesFewer(n, n1);
    var n2 := OnHandler(cfg, n, p, event, now).node;
    match event {
      case NodeTypeRequest(t, id) => NodeTypeTypes(cfg, n1, p, t, id);
      case NodeTypeAnswer(t, _) => NodeTypeTypes(cfg, n1, p, t, 0);
      case ManagerRequest(specs, id) => RequestTypes(n1, p, specs, id, now);
      case ManagerAnswer(accepted, user) => AnswerTypes(cfg, n1, p, accepted, user, now);
      case NotMine(_) => TypesFewer(n1, n2);
      case ManagerBye(_) => TypesFewer(n1, n2);
      case ManagerPong(_) => TypesFewer(n1, n2);
      case TasksPong(_, _) => TypesSame(n1, n2);
      case QueryError(_, _) => TypesSame(n1, n2);
      case _ => RelatedTypes(n1, p, event);
    }
    TypesTrans(n, n1, n2);
  }

  lemma NodeTypeTypes(cfg: Config, n: Node, p: PeerId, t: NodeType, id: nat)
    ensures TypesKept(n, OnNodeTypeAnswer(cfg, n, p, t).node) && TypesKept(n, OnNodeTypeRequest(cfg, n, p, t, id).node)
  {
  }

  lemma RequestTypes(n: Node, p: PeerId, specs: Specs, id: nat, now: int)
    ensures TypesKept(n, OnManagerRequest(n, p, specs, id, now).node)
  {
  }

  lemma AnswerTypes(cfg: Config, n: Node, p: PeerId, accepted: bool, user: int, now: int)
    ensures TypesKept(n, OnManagerAnswer(cfg, n, p, accepted, user, now).node)
  {
    hide QueueSend;
    SendTypes(Counted(n), p, HandlerIn.ManagerPing(n.nextQuery));
  }

  lemma RelatedTypes(n: Node, p: PeerId, event: HandlerOut)
    requires event.ManagerPing? || event.TasksExecute? || event.TasksPing? || event.TasksAbord? || event.TaskStatus?
    ensures TypesKept(n, OnRelated(n, p, event).node)
  {
    hide TypesKept;
    TypesSame(n, OnRelated(n, p, event).node);
  }

  lemma InternalTypes(cfg: Config, n: Node, e: Internal, now: int)
    ensures TypesKept(n, OnInternal(cfg, n, e, now).node)
  {
    hide TypesKept;
    hide OnHandler;
    hide SendOrDial;
    match e
    case Act(_) => TypesSame(n, OnInternal(cfg, n, e, now).node);
    case Mdns(_, _) => TypesFewer(n, OnInternal(cfg, n, e, now).node);
    case SendMessage(p, msg) => SendTypes(n, p, msg);
    case FromHandler(p, event) => HandlerTypes(cfg, n, p, event, now);
    case AskNodeType(_) => TypesFewer(n, OnInternal(cfg, n, e, now).node);
  }

  lemma VerdictTypes(n: Node, p: PeerId, verdict: Verdict)
    ensures TypesKept(n, OnVerdict(n, p, verdict).node)
  {
    TypesFewer(n, OnVerdict(n, p, verdict).node);
  }

  lemma {:induction false} VerdictsTypes(n: Node, verdicts: seq<(PeerId, Verdict)>)
    ensures TypesKept(n, OnVerdicts(n, verdicts).node)
  {
    hide TypesKept;
    hide OnVerdict;
    if verdicts == [] {
      TypesSame(n, n);
    } else {
      var n1 := OnVerdicts(n, verdicts[..|verdicts| - 1]).node;
      VerdictsTypes(n, verdicts[..|verdicts| - 1]);
      VerdictTypes(n1, verdicts[|verdicts| - 1].0, verdicts[|verdicts| - 1].1);
      TypesTrans(n, n1, OnVerdict(n1, verdicts[|verdicts| - 1].0, verdicts[|verdicts| - 1].1).node);
    }
  }

  lemma TimersTypes(cfg: Config, n: Node, order: seq<PeerId>, now: int)
    requires n.role.Managing? ==> forall p | p in order :: p in n.role.workers
    ensures TypesKept(n, Timers(cfg, n, order, now).node)
  {
    hide TypesKept;
    hide OnVerdict;
    hide OnVerdicts;
    TypesSame(n, n);
    if !n.shutting {
      match n.role
      case Managing(workers) =>
        var n1 := n.(role := Managing(map p | p in workers :: Checked(cfg, workers[p], now)));
        TypesFewer(n, n1);
        VerdictsTypes(n1, Verdicts(cfg, workers, order, now));
        TypesTrans(n, n1, Timers(cfg, n, order, now).node);
      case Working(manager) =>
        if manager.Some? {
          var (p, link) := manager.value;
          var n1 := n.(role := Working(Some((p, Checked(cfg, link, now)))));
          TypesFewer(n, n1);
          VerdictTypes(n1, p, Check(cfg, link, now));
          TypesTrans(n, n1, Timers(cfg, n, order, now).node);
        }
    }
  }

  lemma {:induction false} ByeEachTypes(n: Node, peers: seq<PeerId>)
    ensures TypesKept(n, ByeEach(n, peers))
  {
    hide TypesKept;
    hide QueueSend;
    if peers == [] {
      TypesSame(n, n);
    } else {
      var n1 := ByeEach(n, peers[..|peers| - 1]);
      ByeEachTypes(n, peers[..|peers| - 1]);
      TypesSame(n1, Counted(n1));
      TypesTrans(n, n1, Counted(n1));
      SendTypes(Counted(n1), peers[|peers| - 1], HandlerIn.ManagerBye(n1.nextQuery));
      TypesTrans(n, Counted(n1), ByeEach(n, peers));
    }
  }

  lemma OrderTypes(n: Node, o: Order, order: seq<PeerId>)
    ensures TypesKept(n, OnOrder(n, o, order))
  {
    hide ByeEach;
    if o.Bye? {
      var n1 := if n.role.Managing? then n else n.(role := Working(None));
      ByeEachTypes(n1, if n.role.Managing? then order else if n.role.manager.Some? then [n.role.manager.value.0] else []);
    } else {
      TypesFewer(n, OnOrder(n, o, order));
    }
  }

  lemma StepTypes(cfg: Config, s: RelationshipRuns.System, step: RelationshipRuns.SystemStep)
    ensures TypesKept(s.node, RelationshipRuns.AfterStep(cfg, s, step).node)
  {
    hide TypesKept;
    hide OnInternal;
    hide Timers;
    hide OnOrder;
    var n, n' := s.node, RelationshipRuns.AfterStep(cfg, s, step).node;
    TypesSame(n, n);
    if s.stopped { return; }
    match step
    case PollTurn(now) =>
      if n.events != [] {
        var n1 := n.(events := n.events[1..]);
        TypesSame(n, n1);
        InternalTypes(cfg, n1, n.events[0], now);
        TypesTrans(n, n1, n');
      }
    case PollTimers(order, now) =>
      if !n.role.Managing? || Iterates(order, n.role.workers) { TimersTypes(cfg, n, order, now); }
    case Ordered(o, order) => OrderTypes(n, o, order);
    case Connected(_) => TypesFewer(n, n');
    case Disconnected(_) => TypesFewer(n, n');
    case _ => TypesSame(n, n');
  }

  /** In every run a manager knows its workers as workers, and a worker its manager as a manager. */
  lemma {:induction false} RunTypes(cfg: Config, role: Role, steps: seq<RelationshipRuns.SystemStep>)
    requires role == Managing(map[]) || role == Working(None)
    ensures TypesKnown(RelationshipRuns.AfterRun(cfg, role, steps).node)
  {
    hide RelationshipRuns.AfterStep;
    if steps != [] {
      var n := |steps| - 1;
      RunTypes(cfg, role, steps[..n]);
      StepTypes(cfg, RelationshipRuns.AfterRun(cfg, role, steps[..n]), steps[n]);
    }
  }

  /** Node `m` handles the request of `pw` to manage it. */
  function Requested(cfg: Config, m: Node, pw: PeerId, specs: Specs, id: nat, user: nat, now: int): Reaction {
    var request := Substreams.ProcessRequest(Handler.MessageOf(HandlerIn.ManagerRequest(specs, user)), id);
    if request.None? then Reaction(m, Pending) else OnHandler(cfg, m, pw, request.value, now)
  }

  /** Node `m` handles whatever `pw` sends after the answer. */
  function Followed(cfg: Config, m: Node, pw: PeerId, outcome: Outcome, id: nat, now: int): Reaction {
    if !outcome.Ready? || !outcome.action.Notify? then Reaction(m, Pending)
    else
      var event := Substreams.ProcessRequest(Handler.MessageOf(outcome.action.msg), id);
      if event.None? then Reaction(m, Pending) else OnHandler(cfg, m, pw, event.value, now)
  }

  /** A request for a manager stops a manager that does not know the peer as a worker. */
  predicate RequestStops(m: Node, pw: PeerId) {
    m.role.Managing? && PeerAt(m, pw).nodeType != Some(Substreams.Worker)
  }

  /** An answer to such a request stops a worker whose manager the peer already is. */
  predicate AnswerStops(w: Node, pm: PeerId) {
    w.role.Working? && Holds(w.role, pm) && PeerAt(w, pm).nodeType == Some(Substreams.Manager) && !w.shutting
  }

  /**
   A request, its answer, and the `ManagerBye` of a worker that does not want it after all. The node
   asked stops exactly when it does not know the peer as a worker, and the node answered exactly when
   the other is its manager already. When neither stops, `m` manages the other exactly when the other
   has it for a manager, unless the other is shutting down; a worker takes only a manager it authorizes
   and only when it has none.
   */
  lemma RequestSettles(cfgM: Config, cfgW: Config, m: Node, w: Node, pm: PeerId, pw: PeerId, specs: Specs,
                       id: nat, user: nat, id2: nat, now: int)
    requires TypesKnown(m) && TypesKnown(w)
    ensures var rm := Requested(cfgM, m, pw, specs, id, user, now);
            && (rm.outcome.Stopped? <==> RequestStops(m, pw))
            && (!rm.outcome.Stopped? ==>
                  && rm.outcome.Ready? && rm.outcome.action.Notify? && rm.outcome.action.msg.ManagerAnswer?
                  && var rw := Answered(cfgW, w, pm, rm.outcome.action.msg, user, now);
                     && (rw.outcome.Stopped? <==> AnswerStops(w, pm))
                     && (!rw.outcome.Stopped? ==>
                           var rm' := Followed(cfgM, rm.node, pw, rw.outcome, id2, now);
                           var managed := rm'.node.role.Managing? && Holds(rm'.node.role, pw);
                           var managing := rw.node.role.Working? && Holds(rw.node.role, pm);
                           && !rm'.outcome.Stopped?
                           && (managed ==> managing)
                           && (managing && !managed ==> w.shutting && rw.node.role == w.role)
                           && (managing && !Holds(w.role, pm) ==>
                                 && w.role == Working(None) && cfgW.authorized(pm, PeerAt(w, pm).addrs)
                                 && PeerAt(w, pm).nodeType == Some(Substreams.Manager))))
  {
    hide OnHandler;
    RequestAnswered(cfgM, m, pw, specs, id, user, now);
    var rm := Requested(cfgM, m, pw, specs, id, user, now);
    if !rm.outcome.Stopped? {
      AnswerTaken(cfgW, w, pm, rm.outcome.action.msg.accepted, user, id, now);
      var rw := Answered(cfgW, w, pm, rm.outcome.action.msg, user, now);
      if rw.outcome.Ready? && rw.outcome.action.Notify? { ByeFollowed(cfgM, rm.node, pw, rw.outcome, id2, now); }
    }
  }

  lemma ByeFollowed(cfg: Config, m: Node, pw: PeerId, outcome: Outcome, id: nat, now: int)
    requires outcome.Ready? && outcome.action.Notify? && outcome.action.msg.ManagerBye?
    ensures var r := Followed(cfg, m, pw, outcome, id, now); !r.outcome.Stopped? && !Holds(r.node.role, pw)
  {
  }

  lemma RequestAnswered(cfg: Config, m: Node, pw: PeerId, specs: Specs, id: nat, user: nat, now: int)
    requires TypesKnown(m)
    ensures var rm := Requested(cfg, m, pw, specs, id, user, now);
            && (rm.outcome.Stopped? <==> RequestStops(m, pw))
            && (!rm.outcome.Stopped? ==>
                  && rm.outcome.Ready? && rm.outcome.action.Notify?
                  && rm.outcome.action.msg == HandlerIn.ManagerAnswer(m.role.Managing?, id)
                  && (rm.node.role.Managing? <==> m.role.Managing?)
                  && (m.role.Managing? ==> Holds(rm.node.role, pw)))
  {
  }

  lemma AnswerTaken(cfg: Config, w: Node, pm: PeerId, accepted: bool, user: nat, id: nat, now: int)
    requires TypesKnown(w)
    ensures var rw := Answered(cfg, w, pm, HandlerIn.ManagerAnswer(accepted, id), user, now);
            && (rw.outcome.Stopped? <==> AnswerStops(w, pm))
            && (!rw.outcome.Stopped? ==>
                  var managing := rw.node.role.Working? && Holds(rw.node.role, pm);
                  && (rw.outcome.Ready? && rw.outcome.action.Notify? ==> rw.outcome.action.msg.ManagerBye?)
                  && (rw.outcome.Ready? && rw.outcome.action.Notify? <==> accepted && !managing)
                  && (managing && !accepted ==> w.shutting && rw.node.role == w.role)
                  && (managing && !Holds(w.role, pm) ==>
                        && w.role == Working(None) && cfg.authorized(pm, PeerAt(w, pm).addrs)
                        && PeerAt(w, pm).nodeType == Some(Substreams.Manager)))
  {
  }
}

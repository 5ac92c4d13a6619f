/**
 Runs of a node: the workers it announces to the rest of the program are the workers it has, except
 when an answer `NotMine` overtakes an announcement still in the queue.
 */
module RelationshipRuns {
  import opened Base
  import opened Relationship
  import Workers

  // ---------------------------------------------------------------- replaying announcements

  predicate IsAbout(o: Out, p: PeerId) {
    (o.WorkerNew? || o.WorkerBye? || o.WorkerTimedOut?) && o.peer == p
  }

  predicate Ends(o: Out) {
    o.WorkerBye? || o.WorkerTimedOut?
  }

  function After(keys: set<PeerId>, o: Out): set<PeerId> {
    if o.WorkerNew? then keys + {o.peer} else if Ends(o) then keys - {o.peer} else keys
  }

  /** The workers known to somebody who knew `keys` and was told `outs`. */
  function Replay(keys: set<PeerId>, outs: seq<Out>): set<PeerId> {
    if outs == [] then keys else After(Replay(keys, outs[..|outs| - 1]), outs[|outs| - 1])
  }

  /** Nobody is told that an unknown worker is gone. */
  predicate Paired(keys: set<PeerId>, outs: seq<Out>) {
    outs == []
    || (Paired(keys, outs[..|outs| - 1])
        && (Ends(outs[|outs| - 1]) ==> outs[|outs| - 1].peer in Replay(keys, outs[..|outs| - 1])))
  }

  function OutOf(e: Internal): seq<Out> {
    if e.Act? && e.action.Generate? then [e.action.out] else []
  }

  /** The events for the node that wait in the queue. */
  function Outs(events: seq<Internal>): seq<Out> {
    if events == [] then [] else Outs(events[..|events| - 1]) + OutOf(events[|events| - 1])
  }

  function Keys(role: Role): set<PeerId> {
    if role.Managing? then role.workers.Keys else {}
  }

  lemma {:induction false} ReplayAppend(keys: set<PeerId>, a: seq<Out>, b: seq<Out>)
    ensures Replay(keys, a + b) == Replay(Replay(keys, a), b)
    ensures Paired(keys, a + b) <==> Paired(keys, a) && Paired(Replay(keys, a), b)
  {
    if b == [] {
      assert a + b == a;
    } else {
      ReplayAppend(keys, a, b[..|b| - 1]);
      assert (a + b)[..|a + b| - 1] == a + b[..|b| - 1];
    }
  }

  lemma {:induction false} OutsAppend(a: seq<Internal>, b: seq<Internal>)
    ensures Outs(a + b) == Outs(a) + Outs(b)
  {
    hide OutOf;
    if b == [] {
      assert a + b == a;
    } else {
      OutsAppend(a, b[..|b| - 1]);
      assert (a + b)[..|a + b| - 1] == a + b[..|b| - 1];
    }
  }

  lemma OutsOne(e: Internal)
    ensures Outs([e]) == OutOf(e)
  {
    assert [e][..0] == [];
  }

  lemma ReplayOne(keys: set<PeerId>, o: Out)
    ensures Replay(keys, [o]) == After(keys, o) && (Paired(keys, [o]) <==> Ends(o) ==> o.peer in keys)
  {
    assert [o][..0] == [];
  }

  // ---------------------------------------------------------------- queueing keeps track

  /** The queue only grows, by exactly the announcements that explain the change of the workers. */
  ghost predicate Tracks(n: Node, n': Node) {
    && |n.events| <= |n'.events| && n'.events[..|n.events|] == n.events
    && var told := Outs(n'.events[|n.events|..]);
       Replay(Keys(n.role), told) == Keys(n'.role) && Paired(Keys(n.role), told)
  }

  lemma TracksSame(n: Node, n': Node)
    requires n'.events == n.events && Keys(n'.role) == Keys(n.role)
    ensures Tracks(n, n')
  {
    assert n'.events[|n.events|..] == [];
  }

  lemma PrefixTrans(a: seq<Internal>, b: seq<Internal>, c: seq<Internal>)
    requires |a| <= |b| <= |c| && b[..|a|] == a && c[..|b|] == b
    ensures c[..|a|] == a && c[|a|..] == b[|a|..] + c[|b|..]
  {
    assert c == b + c[|b|..];
  }

  lemma TracksTrans(n: Node, n1: Node, n2: Node)
    requires Tracks(n, n1) && Tracks(n1, n2)
    ensures Tracks(n, n2)
  {
    hide Replay;
    hide Paired;
    hide Outs;
    var a, b := n1.events[|n.events|..], n2.events[|n1.events|..];
    PrefixTrans(n.events, n1.events, n2.events);
    OutsAppend(a, b);
    ReplayAppend(Keys(n.role), Outs(a), Outs(b));
  }

  predicate Silent(e: Internal) {
    e.Act? && e.action.Generate? ==> !e.action.out.WorkerNew? && !Ends(e.action.out)
  }

  /** Queueing anything but an announcement. */
  lemma TracksSilent(n: Node, e: Internal, n': Node)
    requires Silent(e) && n'.events == n.events + [e] && Keys(n'.role) == Keys(n.role)
    ensures Tracks(n, n')
  {
    assert n'.events[|n.events|..] == [e];
    OutsOne(e);
    if OutOf(e) != [] { ReplayOne(Keys(n.role), e.action.out); }
  }

  /** Queueing an announcement together with the change it announces. */
  lemma TracksOut(n: Node, o: Out, n': Node)
    requires n'.events == n.events + [Act(Generate(o))]
    requires Keys(n'.role) == After(Keys(n.role), o) && (Ends(o) ==> o.peer in Keys(n.role))
    ensures Tracks(n, n')
  {
    assert n'.events[|n.events|..] == [Act(Generate(o))];
    OutsOne(Act(Generate(o)));
    ReplayOne(Keys(n.role), o);
  }

  lemma SendTracks(n: Node, p: PeerId, msg: HandlerIn)
    ensures Tracks(n, QueueSend(n, p, msg))
  {
    hide Tracks;
    var sent := SendOrDial(n, p, msg);
    TracksSilent(n, Act(sent.1), QueueSend(n, p, msg));
  }

  ghost predicate Quiet(outcome: Outcome) {
    outcome.Ready? ==> Silent(Act(outcome.action))
  }

  lemma NodeTypeTracks(cfg: Config, n: Node, p: PeerId, t: NodeType, id: nat)
    ensures var r := OnNodeTypeAnswer(cfg, n, p, t); Tracks(n, r.node) && Quiet(r.outcome)
    ensures var r := OnNodeTypeRequest(cfg, n, p, t, id); Tracks(n, r.node) && Quiet(r.outcome)
  {
    hide Tracks;
    var r, r' := OnNodeTypeAnswer(cfg, n, p, t), OnNodeTypeRequest(cfg, n, p, t, id);
    if PeerAt(n, p).nodeType.Some? {
      TracksSame(n, r.node);
    } else {
      TracksSilent(n, Act(Generate(PeerHasNewType(p, t))), r.node);
    }
    if r.outcome.Ready? {
      TracksSilent(r.node, Act(r.outcome.action), r'.node);
      TracksTrans(n, r.node, r'.node);
    }
  }

  lemma RequestTracks(n: Node, p: PeerId, specs: Specs, id: nat, now: int)
    ensures var r := OnManagerRequest(n, p, specs, id, now); Tracks(n, r.node) && Quiet(r.outcome)
  {
    hide Tracks;
    var r := OnManagerRequest(n, p, specs, id, now);
    if r.outcome.Stopped? {
      TracksSame(n, r.node);
    } else if n.role.Managing? {
      TracksOut(n, WorkerNew(p, specs), r.node);
    } else {
      TracksSilent(n, r.node.events[|n.events|], r.node);
    }
  }

  lemma AnswerTracks(cfg: Config, n: Node, p: PeerId, accepted: bool, user: int, now: int)
    ensures var r := OnManagerAnswer(cfg, n, p, accepted, user, now); Tracks(n, r.node) && Quiet(r.outcome)
  {
    hide Tracks;
    var r := OnManagerAnswer(cfg, n, p, accepted, user, now);
    TracksSame(n, Counted(n));
    if r.outcome.Pending? {
      SendTracks(Counted(n), p, HandlerIn.ManagerPing(n.nextQuery));
      TracksTrans(n, Counted(n), r.node);
    } else if r.outcome.Ready? && r.outcome.action.Notify? {
      TracksSilent(n, r.node.events[|n.events|], r.node);
    } else if r.outcome.Ready? {
      TracksSame(n, r.node);
    }
  }

  lemma ByeTracks(n: Node, p: PeerId, id: nat)
    ensures var r := OnManagerBye(n, p, id); Tracks(n, r.node) && Quiet(r.outcome)
  {
    hide Tracks;
    var r := OnManagerBye(n, p, id);
    if !Holds(n.role, p) {
      TracksSame(n, r.node);
    } else if n.role.Working? {
      TracksSilent(n, Act(Generate(ManagerBye(p))), r.node);
    } else {
      TracksOut(n, WorkerBye(p), r.node);
    }
  }

  lemma RelatedTracks(n: Node, p: PeerId, event: HandlerOut)
    requires event.ManagerPing? || event.TasksExecute? || event.TasksPing? || event.TasksAbord? || event.TaskStatus?
    ensures var r := OnRelated(n, p, event); Tracks(n, r.node) && Quiet(r.outcome)
  {
    hide Tracks;
    var r := OnRelated(n, p, event);
    if |r.node.events| > |n.events| {
      TracksSilent(n, r.node.events[|n.events|], r.node);
    } else {
      TracksSame(n, r.node);
    }
  }

  /** Every message of a peer but `NotMine` is announced through the queue. */
  lemma HandlerTracks(cfg: Config, n: Node, p: PeerId, event: HandlerOut, now: int)
    requires !event.NotMine?
    ensures var r := OnHandler(cfg, n, p, event, now); Tracks(n, r.node) && Quiet(r.outcome)
  {
    hide Tracks;
    hide OnNodeTypeAnswer;
    hide OnNodeTypeRequest;
    hide OnManagerAnswer;
    hide OnManagerRequest;
    hide OnManagerBye;
    hide OnRelated;
    var n1 := WithPeer(n, p, PeerAt(n, p));
    TracksSame(n, n1);
    var r := OnHandler(cfg, n, p, event, now);
    match event {
    case NodeTypeRequest(t, id) => NodeTypeTracks(cfg, n1, p, t, id);
    case NodeTypeAnswer(t, _) => NodeTypeTracks(cfg, n1, p, t, 0);
    case ManagerRequest(specs, id) => RequestTracks(n1, p, specs, id, now);
    case ManagerAnswer(accepted, user) => AnswerTracks(cfg, n1, p, accepted, user, now);
    case ManagerBye(id) => ByeTracks(n1, p, id);
    case ManagerPong(_) => TracksSame(n1, r.node);
    case TasksPong(_, _) => TracksSame(n1, r.node);
    case QueryError(_, _) => TracksSilent(n1, Act(Generate(FromPeer(p, event))), r.node);
    case _ => RelatedTracks(n1, p, event);
    }
    TracksTrans(n, n1, r.node);
  }

  lemma InternalTracks(cfg: Config, n: Node, e: Internal, now: int)
    requires !e.Act? && !(e.FromHandler? && e.event.NotMine?)
    ensures var r := OnInternal(cfg, n, e, now); Tracks(n, r.node) && Quiet(r.outcome)
  {
    hide Tracks;
    hide OnHandler;
    if e.FromHandler? {
      HandlerTracks(cfg, n, e.peer, e.event, now);
    } else {
      TracksSame(n, OnInternal(cfg, n, e, now).node);
    }
  }

  // ---------------------------------------------------------------- time and orders

  lemma VerdictTracks(n: Node, p: PeerId, verdict: Verdict)
    ensures Tracks(n, OnVerdict(n, p, verdict).node)
  {
    hide Tracks;
    TracksSame(n, Counted(n));
    match verdict
    case Continuing => TracksSame(n, n);
    case MustPing =>
      SendTracks(Counted(n), p, HandlerIn.ManagerPing(n.nextQuery));
      TracksTrans(n, Counted(n), OnVerdict(n, p, verdict).node);
    case TimedOut =>
      SendTracks(Counted(n), p, HandlerIn.ManagerBye(n.nextQuery));
      var n1 := QueueSend(Counted(n), p, HandlerIn.ManagerBye(n.nextQuery));
      TracksTrans(n, Counted(n), n1);
      var n2 := OnVerdict(n, p, verdict).node;
      if Holds(n1.role, p) {
        if n1.role.Working? { TracksSilent(n1, Act(Generate(ManagerTimedOut(p))), n2); }
        else { TracksOut(n1, WorkerTimedOut(p), n2); }
        TracksTrans(n, n1, n2);
      }
  }

  lemma {:induction false} VerdictsTrack(n: Node, verdicts: seq<(PeerId, Verdict)>)
    ensures Tracks(n, OnVerdicts(n, verdicts).node)
  {
    hide Tracks;
    hide OnVerdict;
    if verdicts == [] {
      TracksSame(n, n);
    } else {
      var last := verdicts[|verdicts| - 1];
      var n1 := OnVerdicts(n, verdicts[..|verdicts| - 1]).node;
      VerdictsTrack(n, verdicts[..|verdicts| - 1]);
      VerdictTracks(n1, last.0, last.1);
      TracksTrans(n, n1, OnVerdict(n1, last.0, last.1).node);
    }
  }

  lemma TimersTrack(cfg: Config, n: Node, order: seq<PeerId>, now: int)
    requires n.role.Managing? ==> forall p | p in order :: p in n.role.workers
    ensures Tracks(n, Timers(cfg, n, order, now).node)
  {
    hide Tracks;
    hide OnVerdict;
    hide OnVerdicts;
    TracksSame(n, n);
    if !n.shutting {
      match n.role
      case Managing(workers) =>
        var n1 := n.(role := Managing(map p | p in workers :: Checked(cfg, workers[p], now)));
        TracksSame(n, n1);
        VerdictsTrack(n1, Verdicts(cfg, workers, order, now));
        TracksTrans(n, n1, Timers(cfg, n, order, now).node);
      case Working(manager) =>
        if manager.Some? {
          var (p, link) := manager.value;
          var n1 := n.(role := Working(Some((p, Checked(cfg, link, now)))));
          TracksSame(n, n1);
          VerdictTracks(n1, p, Check(cfg, link, now));
          TracksTrans(n, n1, Timers(cfg, n, order, now).node);
        }
    }
  }

  lemma {:induction false} ByeEachTracks(n: Node, peers: seq<PeerId>)
    ensures Tracks(n, ByeEach(n, peers)) && ByeEach(n, peers).role == n.role
  {
    hide Tracks;
    if peers == [] {
      TracksSame(n, n);
    } else {
      var n1 := ByeEach(n, peers[..|peers| - 1]);
      ByeEachTracks(n, peers[..|peers| - 1]);
      TracksSame(n1, Counted(n1));
      SendTracks(Counted(n1), peers[|peers| - 1], HandlerIn.ManagerBye(n1.nextQuery));
      TracksTrans(n, n1, Counted(n1));
      TracksTrans(n, Counted(n1), ByeEach(n, peers));
    }
  }

  lemma OrderTracks(n: Node, o: Order, order: seq<PeerId>)
    ensures Tracks(n, OnOrder(n, o, order))
  {
    hide Tracks;
    hide ByeEach;
    var n' := OnOrder(n, o, order);
    if o.Bye? {
      var peers := if n.role.Managing? then order else if n.role.manager.Some? then [n.role.manager.value.0] else [];
      var n1 := if n.role.Managing? then n else n.(role := Working(None));
      TracksSame(n, n1);
      ByeEachTracks(n1, peers);
      TracksTrans(n, n1, ByeEach(n1, peers));
      TracksSame(ByeEach(n1, peers), n');
      TracksTrans(n, ByeEach(n1, peers), n');
    } else {
      TracksSilent(n, n'.events[|n.events|], n');
    }
  }

  lemma {:induction false} SendEachTracks(n: Node, p: PeerId, msgs: seq<HandlerIn>)
    ensures Tracks(n, SendEach(n, p, msgs))
  {
    hide Tracks;
    if msgs == [] {
      TracksSame(n, SendEach(n, p, msgs));
    } else {
      var front, last := msgs[..|msgs| - 1], msgs[|msgs| - 1];
      SendEachTracks(n, p, front);
      var n1, n2 := SendEach(n, p, front), SendEach(n, p, msgs);
      assert n2.events == n1.events + [SendMessage(p, last)];
      TracksSilent(n1, SendMessage(p, last), n2);
      TracksTrans(n, n1, n2);
    }
  }

  lemma ConnectedTracks(n: Node, p: PeerId)
    ensures Tracks(n, OnConnected(n, p))
  {
    hide Tracks;
    hide SendEach;
    var peer := PeerAt(n, p);
    var n1 := if peer.nodeType.None? then Queue(n, AskNodeType(p)) else n;
    if peer.nodeType.None? { TracksSilent(n, AskNodeType(p), n1); } else { TracksSame(n, n1); }
    var n2 := WithPeer(n1, p, peer.(connected := true, pending := []));
    TracksSame(n1, n2);
    TracksTrans(n, n1, n2);
    SendEachTracks(n2, p, peer.pending);
    var n3 := SendEach(n2, p, peer.pending);
    TracksTrans(n, n2, n3);
    TracksSilent(n3, Act(Generate(PeerConnected(p))), OnConnected(n, p));
    TracksTrans(n, n3, OnConnected(n, p));
  }

  // ---------------------------------------------------------------- the node and what it has announced

  /**
   A node, what it has announced, the requests it sent that are not answered yet, each with the number
   of its query, and whether it has stopped.
   */
  datatype System = System(emitted: seq<Out>, node: Node, asked: multiset<(PeerId, int)>, stopped: bool)

  /** Announcements made and still queued lead to the workers of the node, and none ends an unknown one. */
  ghost predicate Consistent(s: System) {
    var outs := s.emitted + Outs(s.node.events);
    Replay({}, outs) == Keys(s.node.role) && Paired({}, outs)
  }

  lemma TracksConsistent(s: System, n': Node)
    requires Consistent(s) && Tracks(s.node, n')
    ensures Consistent(s.(node := n'))
  {
    hide Replay;
    hide Paired;
    hide Outs;
    var more := n'.events[|s.node.events|..];
    assert n'.events == s.node.events + more;
    OutsAppend(s.node.events, more);
    var outs := s.emitted + Outs(s.node.events);
    assert s.emitted + Outs(n'.events) == outs + Outs(more);
    ReplayAppend({}, outs, Outs(more));
  }

  function AskedBy(outcome: Outcome): multiset<(PeerId, int)> {
    if outcome.Ready? && outcome.action.Notify? && !outcome.action.msg.IsAnswer()
    then multiset{(outcome.action.peer, outcome.action.msg.userData)} else multiset{}
  }

  function Emit(s: System, r: Reaction): System {
    System(s.emitted + (if r.outcome.Ready? then OutOf(Act(r.outcome.action)) else []), r.node,
           s.asked + AskedBy(r.outcome), r.outcome.Stopped?)
  }

  /** One turn of the loop of `poll`. */
  function Turn(cfg: Config, s: System, now: int): System {
    if s.node.events == [] then s else Emit(s, Next(cfg, s.node, now))
  }

  /** A `NotMine` of a worker is next, and an announcement about that worker still waits behind it. */
  ghost predicate Overtaken(n: Node) {
    && n.events != [] && n.events[0].FromHandler? && n.events[0].event.NotMine?
    && n.events[0].peer in Keys(n.role)
    && exists i :: 0 <= i < |Outs(n.events[1..])| && IsAbout(Outs(n.events[1..])[i], n.events[0].peer)
  }

  lemma HeadOut(s: System)
    requires s.node.events != []
    ensures Outs(s.node.events) == OutOf(s.node.events[0]) + Outs(s.node.events[1..])
  {
    OutsAppend([s.node.events[0]], s.node.events[1..]);
    OutsOne(s.node.events[0]);
    assert s.node.events == [s.node.events[0]] + s.node.events[1..];
  }

  /** A turn keeps announcements and workers together exactly when no `NotMine` overtakes. */
  lemma TurnConsistent(cfg: Config, s: System, now: int)
    requires Consistent(s)
    ensures Consistent(Turn(cfg, s, now)) <==> !Overtaken(s.node)
  {
    hide OnHandler;
    hide Tracks;
    hide Replay;
    hide Paired;
    hide Outs;
    hide OnInternal;
    if s.node.events != [] {
      var head := s.node.events[0];
      var base := s.(emitted := s.emitted + OutOf(head), node := s.node.(events := s.node.events[1..]));
      HeadOut(s);
      assert base.emitted + Outs(base.node.events) == s.emitted + Outs(s.node.events);
      if head.Act? {
        InternalAct(cfg, base.node, head, now);
        var after := Turn(cfg, s, now);
        assert after.emitted == base.emitted && after.node == base.node;
      } else {
        assert base.emitted == s.emitted;
        var r := OnInternal(cfg, base.node, head, now);
        assert Turn(cfg, s, now) == Emit(base, r);
        if head.FromHandler? && head.event.NotMine? {
          NotMineConsistent(cfg, base, head.peer, head.event, now);
          InternalHandler(cfg, base.node, head, now);
        } else {
          InternalTracks(cfg, base.node, head, now);
          TracksConsistent(base, r.node);
          QuietEmit(base.(node := r.node), r.outcome);
        }
      }
    }
  }

  lemma InternalAct(cfg: Config, n: Node, e: Internal, now: int)
    requires e.Act?
    ensures OnInternal(cfg, n, e, now) == Reaction(n, Ready(e.action))
  {
  }

  lemma InternalHandler(cfg: Config, n: Node, e: Internal, now: int)
    requires e.FromHandler?
    ensures OnInternal(cfg, n, e, now) == OnHandler(cfg, n, e.peer, e.event, now)
  {
  }

  /** Returning anything but an announcement. */
  lemma QuietEmit(s: System, outcome: Outcome)
    requires Quiet(outcome)
    ensures Consistent(Emit(s, Reaction(s.node, outcome))) <==> Consistent(s)
  {
    hide Replay;
    hide Paired;
    hide Outs;
    if outcome.Ready? && outcome.action.Generate? {
      SilentWord(outcome.action.out, Outs(s.node.events), s.emitted);
    } else {
      assert s.emitted + [] == s.emitted;
    }
  }

  lemma NotMineConsistent(cfg: Config, s: System, p: PeerId, event: HandlerOut, now: int)
    requires Consistent(s) && event.NotMine?
    ensures var waits := exists i :: 0 <= i < |Outs(s.node.events)| && IsAbout(Outs(s.node.events)[i], p);
            Consistent(Emit(s, OnHandler(cfg, s.node, p, event, now))) <==> !(p in Keys(s.node.role) && waits)
  {
    hide Replay;
    hide Paired;
    hide Outs;
    hide Consistent;
    var r := OnNotMine(WithPeer(s.node, p, PeerAt(s.node, p)), p);
    assert OnHandler(cfg, s.node, p, event, now) == r;
    if p in Keys(s.node.role) {
      GoneConsistent(s, r.node, p);
      SameSystem(Emit(s, r), s.(emitted := s.emitted + [WorkerBye(p)], node := r.node));
    } else {
      SameConsistent(s, r.node);
      QuietEmit(s.(node := r.node), r.outcome);
    }
  }

  lemma SameSystem(s: System, s': System)
    requires s'.emitted == s.emitted && s'.node == s.node
    ensures Consistent(s') <==> Consistent(s)
  {
  }

  lemma SameConsistent(s: System, n': Node)
    requires n'.events == s.node.events && Keys(n'.role) == Keys(s.node.role)
    ensures Consistent(s.(node := n')) <==> Consistent(s)
  {
  }

  lemma GoneConsistent(s: System, n': Node, p: PeerId)
    requires Consistent(s) && n'.events == s.node.events && Keys(n'.role) == Keys(s.node.role) - {p} && p in Keys(s.node.role)
    ensures var waits := exists i :: 0 <= i < |Outs(s.node.events)| && IsAbout(Outs(s.node.events)[i], p);
            Consistent(s.(emitted := s.emitted + [WorkerBye(p)], node := n')) <==> !waits
  {
    hide Replay;
    hide Paired;
    hide Outs;
    var queued := Outs(s.node.events);
    var told := Replay({}, s.emitted);
    ReplayAppend({}, s.emitted, queued);
    ReplayAppend({}, s.emitted, [WorkerBye(p)]);
    ReplayOne(told, WorkerBye(p));
    ReplayAppend({}, s.emitted + [WorkerBye(p)], queued);
    if i :| 0 <= i < |queued| && IsAbout(queued[i], p) {
      LastWord(told, told - {p}, queued, p);
      assert s.emitted + Outs(s.node.events) == s.emitted + queued;
      assert p in Replay({}, (s.emitted + [WorkerBye(p)]) + Outs(n'.events));
    } else {
      NoWord(told, queued, p);
    }
  }

  /** With an announcement about `p`, the last one decides whether `p` is known. */
  lemma {:induction false} LastWord(a: set<PeerId>, b: set<PeerId>, outs: seq<Out>, p: PeerId)
    requires exists i :: 0 <= i < |outs| && IsAbout(outs[i], p)
    ensures p in Replay(a, outs) <==> p in Replay(b, outs)
  {
    var n := |outs| - 1;
    if !IsAbout(outs[n], p) {
      var i :| 0 <= i < |outs| && IsAbout(outs[i], p);
      assert IsAbout(outs[..n][i], p);
      LastWord(a, b, outs[..n], p);
    }
  }

  /** Without any, `p` may be dropped before instead of after. */
  lemma {:induction false} NoWord(keys: set<PeerId>, outs: seq<Out>, p: PeerId)
    requires forall i | 0 <= i < |outs| :: !IsAbout(outs[i], p)
    ensures Replay(keys - {p}, outs) == Replay(keys, outs) - {p}
    ensures p in Replay(keys, outs) <==> p in keys
    ensures Paired(keys - {p}, outs) <==> Paired(keys, outs)
  {
    if outs != [] {
      NoWord(keys, outs[..|outs| - 1], p);
      assert !IsAbout(outs[|outs| - 1], p);
    }
  }

  lemma SilentWord(o: Out, outs: seq<Out>, before: seq<Out>)
    requires !o.WorkerNew? && !Ends(o)
    ensures Replay({}, before + [o] + outs) == Replay({}, before + outs)
    ensures Paired({}, before + [o] + outs) <==> Paired({}, before + outs)
  {
    ReplayAppend({}, before, [o]);
    ReplayOne(Replay({}, before), o);
    ReplayAppend({}, before + [o], outs);
    ReplayAppend({}, before, outs);
  }

  // ---------------------------------------------------------------- runs

  datatype SystemStep =
    | PollTurn(now: int)
    | PollTimers(order: seq<PeerId>, now: int)
    | Deliver(peer: PeerId, event: HandlerOut)
    | Discover(peer: PeerId, address: int)
    | Connected(peer: PeerId)
    | Disconnected(peer: PeerId)
    | Ordered(o: Order, order: seq<PeerId>)

  /** The steps of a run; a poll is a `PollTimers` followed by turns. A node that has stopped does nothing. */
  function AfterStep(cfg: Config, s: System, step: SystemStep): System {
    if s.stopped then s
    else match step
      case PollTurn(now) => Turn(cfg, s, now)
      case PollTimers(order, now) =>
        if s.node.role.Managing? && !Iterates(order, s.node.role.workers) then s
        else
          var r := Timers(cfg, s.node, order, now);
          s.(node := r.node, stopped := r.outcome.Stopped?)
      case Deliver(p, event) =>
        s.(node := Queue(s.node, FromHandler(p, event)),
           asked := if event.IsRequest() then s.asked else s.asked - multiset{(p, event.userData)})
      case Discover(p, address) => s.(node := Queue(s.node, Mdns(p, address)))
      case Connected(p) => s.(node := OnConnected(s.node, p))
      case Disconnected(p) =>
        var r := OnDisconnected(s.node, p);
        s.(node := r.node, stopped := r.outcome.Stopped?)
      case Ordered(o, order) => s.(node := OnOrder(s.node, o, order))
  }

  function AfterRun(cfg: Config, role: Role, steps: seq<SystemStep>): System {
    if steps == [] then System([], Node(role, map[], [], 0, false), multiset{}, false)
    else AfterStep(cfg, AfterRun(cfg, role, steps[..|steps| - 1]), steps[|steps| - 1])
  }

  /** Peers answer only what they were asked, each query once; their requests come as they like. */
  ghost predicate Receivable(cfg: Config, role: Role, steps: seq<SystemStep>) {
    forall k | 0 <= k < |steps| && steps[k].Deliver? && !steps[k].event.IsRequest() ::
      (steps[k].peer, steps[k].event.userData) in AfterRun(cfg, role, steps[..k]).asked
  }

  lemma StepConsistent(cfg: Config, s: System, step: SystemStep)
    requires Consistent(s)
    ensures Consistent(AfterStep(cfg, s, step)) <==> !(!s.stopped && step.PollTurn? && Overtaken(s.node))
  {
    hide Tracks;
    hide Consistent;
    hide Turn;
    hide Overtaken;
    hide Timers;
    hide Iterates;
    hide OnConnected;
    hide OnDisconnected;
    hide OnOrder;
    hide Queue;
    if s.stopped { return; }
    match step
    case PollTurn(now) => TurnConsistent(cfg, s, now);
    case PollTimers(order, now) =>
      if !s.node.role.Managing? || Iterates(order, s.node.role.workers) { TimersConsistent(cfg, s, order, now); }
    case Deliver(p, event) =>
      QueuedConsistent(s, FromHandler(p, event));
      SameSystem(s.(node := Queue(s.node, FromHandler(p, event))), AfterStep(cfg, s, step));
    case Discover(p, address) => QueuedConsistent(s, Mdns(p, address));
    case Connected(p) =>
      ConnectedTracks(s.node, p);
      TracksConsistent(s, OnConnected(s.node, p));
    case Disconnected(p) => DisconnectedConsistent(s, p);
    case Ordered(o, order) =>
      OrderTracks(s.node, o, order);
      TracksConsistent(s, OnOrder(s.node, o, order));
  }

  lemma TimersConsistent(cfg: Config, s: System, order: seq<PeerId>, now: int)
    requires Consistent(s) && (s.node.role.Managing? ==> Iterates(order, s.node.role.workers))
    ensures var r := Timers(cfg, s.node, order, now);
            Consistent(s.(node := r.node, stopped := r.outcome.Stopped?))
  {
    hide Tracks;
    hide Timers;
    hide Consistent;
    var r := Timers(cfg, s.node, order, now);
    TimersTrack(cfg, s.node, order, now);
    TracksConsistent(s, r.node);
    SameSystem(s.(node := r.node), s.(node := r.node, stopped := r.outcome.Stopped?));
  }

  lemma QueuedConsistent(s: System, e: Internal)
    requires Consistent(s) && !e.Act?
    ensures Consistent(s.(node := Queue(s.node, e)))
  {
    hide Tracks;
    hide Consistent;
    TracksSilent(s.node, e, Queue(s.node, e));
    TracksConsistent(s, Queue(s.node, e));
  }

  lemma DisconnectedConsistent(s: System, p: PeerId)
    requires Consistent(s)
    ensures var r := OnDisconnected(s.node, p);
            Consistent(s.(node := r.node, stopped := r.outcome.Stopped?))
  {
    hide Tracks;
    hide Consistent;
    var r := OnDisconnected(s.node, p);
    if p in s.node.peers {
      TracksSilent(s.node, Act(Generate(PeerDisconnected(p))), r.node);
      TracksConsistent(s, r.node);
      SameSystem(s.(node := r.node), s.(node := r.node, stopped := r.outcome.Stopped?));
    } else {
      SameSystem(s, s.(node := r.node, stopped := r.outcome.Stopped?));
    }
  }

  /** In every run without an overtaking, announcements and workers stay together. */
  lemma {:induction false} RunConsistent(cfg: Config, role: Role, steps: seq<SystemStep>)
    requires Keys(role) == {}
    requires forall k | 0 <= k < |steps| && steps[k].PollTurn? :: !Overtaken(AfterRun(cfg, role, steps[..k]).node)
    ensures Consistent(AfterRun(cfg, role, steps))
  {
    hide AfterStep;
    hide Overtaken;
    if steps == [] {
      assert [] + Outs([]) == [];
    } else {
      var n := |steps| - 1;
      forall k | 0 <= k < n && steps[..n][k].PollTurn? ensures !Overtaken(AfterRun(cfg, role, steps[..n][..k]).node) {
        assert steps[..n][..k] == steps[..k] && steps[k].PollTurn?;
      }
      RunConsistent(cfg, role, steps[..n]);
      StepConsistent(cfg, AfterRun(cfg, role, steps[..n]), steps[n]);
    }
  }

  // ---------------------------------------------------------------- the slot table listens

  /** The slot table of a manager after the announcements `outs`. */
  function TableAfter(outs: seq<Out>): seq<Workers.WorkerData> {
    if outs == [] then []
    else
      var ws := TableAfter(outs[..|outs| - 1]);
      var o := outs[|outs| - 1];
      if o.WorkerNew? then Workers.Pushed(ws, o.peer, o.specs.cpuCount)
      else if Ends(o) then Workers.Removed(ws, o.peer)
      else ws
  }

  ghost predicate Lists(ws: seq<Workers.WorkerData>, p: PeerId) {
    Workers.FindPeer(ws, p) < |ws|
  }

  lemma {:induction false} TableReplays(outs: seq<Out>)
    ensures Workers.DistinctPeers(TableAfter(outs))
    ensures forall p :: Lists(TableAfter(outs), p) <==> p in Replay({}, outs)
  {
    if outs != [] {
      var o := outs[|outs| - 1];
      var ws := TableAfter(outs[..|outs| - 1]);
      TableReplays(outs[..|outs| - 1]);
      if o.WorkerNew? || Ends(o) {
        Workers.PushRemove(ws, o.peer, if o.WorkerNew? then o.specs.cpuCount else 0);
        forall p ensures Lists(TableAfter(outs), p) <==> p in Replay({}, outs) {
          if p != o.peer { OthersStay(ws, o, p); }
        }
      }
    }
  }

  lemma OthersStay(ws: seq<Workers.WorkerData>, o: Out, p: PeerId)
    requires (o.WorkerNew? || Ends(o)) && p != o.peer && Workers.DistinctPeers(ws)
    ensures o.WorkerNew? ==> (Lists(Workers.Pushed(ws, o.peer, o.specs.cpuCount), p) <==> Lists(ws, p))
    ensures Ends(o) ==> (Lists(Workers.Removed(ws, o.peer), p) <==> Lists(ws, p))
  {
    hide Lists;
    if o.WorkerNew? {
      PushedStay(ws, o.peer, o.specs.cpuCount, p);
    } else {
      RemovedStay(ws, o.peer, p);
    }
  }

  lemma PushedStay(ws: seq<Workers.WorkerData>, q: PeerId, cpus: nat, p: PeerId)
    requires p != q
    ensures Lists(Workers.Pushed(ws, q, cpus), p) <==> Lists(ws, p)
  {
    var after := Workers.Pushed(ws, q, cpus);
    var k, k' := Workers.FindPeer(ws, p), Workers.FindPeer(after, p);
    if k < |ws| { assert after[k].peer == p; }
    if k' < |ws| { assert ws[k'].peer == p; }
  }

  lemma RemovedStay(ws: seq<Workers.WorkerData>, q: PeerId, p: PeerId)
    requires p != q
    ensures Lists(Workers.Removed(ws, q), p) <==> Lists(ws, p)
  {
    var i, after := Workers.FindPeer(ws, q), Workers.Removed(ws, q);
    var k, k' := Workers.FindPeer(ws, p), Workers.FindPeer(after, p);
    if i < |ws| {
      assert forall x | 0 <= x < |after| :: after[x] == ws[if x < i then x else x + 1];
      if k < |ws| { assert after[if k < i then k else k - 1].peer == p; }
      if k' < |after| { assert ws[if k' < i then k' else k' + 1].peer == p; }
    }
  }

  /**
   In a run without an overtaking, `delete_worker` always finds the worker, and once the queue is
   empty the table lists exactly the workers of the node.
   */
  lemma TableFollows(cfg: Config, role: Role, steps: seq<SystemStep>)
    requires Keys(role) == {}
    requires forall k | 0 <= k < |steps| && steps[k].PollTurn? :: !Overtaken(AfterRun(cfg, role, steps[..k]).node)
    ensures var s := AfterRun(cfg, role, steps);
            && (forall i | 0 <= i < |s.emitted| && Ends(s.emitted[i]) :: Lists(TableAfter(s.emitted[..i]), s.emitted[i].peer))
            && (s.node.events == [] ==> forall p :: Lists(TableAfter(s.emitted), p) <==> p in Keys(s.node.role))
  {
    hide AfterStep;
    hide Overtaken;
    RunConsistent(cfg, role, steps);
    var s := AfterRun(cfg, role, steps);
    ReplayAppend({}, s.emitted, Outs(s.node.events));
    forall i | 0 <= i < |s.emitted| && Ends(s.emitted[i]) ensures Lists(TableAfter(s.emitted[..i]), s.emitted[i].peer) {
      PairedAt({}, s.emitted, i);
      TableReplays(s.emitted[..i]);
    }
    if s.node.events == [] {
      assert s.emitted + Outs([]) == s.emitted;
      TableReplays(s.emitted);
    }
  }

  lemma {:induction false} PairedAt(keys: set<PeerId>, outs: seq<Out>, i: nat)
    requires Paired(keys, outs) && i < |outs| && Ends(outs[i])
    ensures outs[i].peer in Replay(keys, outs[..i])
  {
    var n := |outs| - 1;
    if i < n {
      assert outs[..n][..i] == outs[..i];
      PairedAt(keys, outs[..n], i);
    }
  }

  // ---------------------------------------------------------------- when an overtaking is a panic

  /** A step tells the slot table that a worker it does not list is gone: `delete_worker` panics. */
  ghost predicate EndsUnlisted(s: System, s': System) {
    exists i :: |s.emitted| <= i < |s'.emitted| && Ends(s'.emitted[i]) && !Lists(TableAfter(s'.emitted[..i]), s'.emitted[i].peer)
  }

  /**
   A turn does so exactly when a `NotMine` overtakes and the table does not list its worker yet. If the
   table lists it, the row goes, and the announcement that was overtaken decides whether it comes back.
   */
  lemma TurnPanicsIff(cfg: Config, s: System, now: int)
    requires Consistent(s)
    ensures EndsUnlisted(s, Turn(cfg, s, now))
            <==> Overtaken(s.node) && !Lists(TableAfter(s.emitted), s.node.events[0].peer)
  {
    hide OnInternal;
    hide Replay;
    hide Paired;
    hide TableAfter;
    hide Lists;
    var s' := Turn(cfg, s, now);
    if Overtaken(s.node) {
      OvertakingTells(cfg, s, now);
      assert s'.emitted[..|s.emitted|] == s.emitted;
    } else {
      TurnConsistent(cfg, s, now);
      ReplayAppend({}, s'.emitted, Outs(s'.node.events));
      forall i | |s.emitted| <= i < |s'.emitted| && Ends(s'.emitted[i])
        ensures Lists(TableAfter(s'.emitted[..i]), s'.emitted[i].peer)
      {
        PairedAt({}, s'.emitted, i);
        TableReplays(s'.emitted[..i]);
      }
    }
  }

  lemma OvertakingTells(cfg: Config, s: System, now: int)
    requires Overtaken(s.node)
    ensures Turn(cfg, s, now).emitted == s.emitted + [WorkerBye(s.node.events[0].peer)]
  {
  }

  // ---------------------------------------------------------------- when a node stops

  /** What stops a node: a lock it holds itself, or the end of a connection it never saw. */
  ghost predicate Stops(s: System, step: SystemStep) {
    match step
    case PollTurn(_) => s.node.events != [] && SelfLocks(s.node, s.node.events[0])
    case Disconnected(p) => p !in s.node.peers
    case _ => false
  }

  ghost predicate StopsAt(cfg: Config, role: Role, steps: seq<SystemStep>, k: nat) {
    k < |steps| && Stops(AfterRun(cfg, role, steps[..k]), steps[k]) && !AfterRun(cfg, role, steps[..k]).stopped
  }

  /** A run has stopped exactly when one of its steps was such a step. */
  lemma {:induction false} RunStopsIff(cfg: Config, role: Role, steps: seq<SystemStep>)
    ensures AfterRun(cfg, role, steps).stopped <==> exists k: nat :: StopsAt(cfg, role, steps, k)
  {
    hide AfterStep;
    hide Stops;
    hide StopsAt;
    if steps == [] {
      StopsNowhere(cfg, role);
    } else {
      var n := |steps| - 1;
      RunStopsIff(cfg, role, steps[..n]);
      StepStopsIff(cfg, AfterRun(cfg, role, steps[..n]), steps[n]);
      StopsAtMore(cfg, role, steps, n);
      if k: nat :| StopsAt(cfg, role, steps[..n], k) { StopsAtMore(cfg, role, steps, k); }
      if k: nat :| StopsAt(cfg, role, steps, k) { StopsAtMore(cfg, role, steps, k); }
    }
  }

  lemma StopsNowhere(cfg: Config, role: Role)
    ensures forall k: nat :: !StopsAt(cfg, role, [], k)
  {
  }

  lemma StopsAtMore(cfg: Config, role: Role, steps: seq<SystemStep>, k: nat)
    requires steps != []
    ensures var n := |steps| - 1;
            StopsAt(cfg, role, steps, k)
            <==> (StopsAt(cfg, role, steps[..n], k)
                  || (k == n && Stops(AfterRun(cfg, role, steps[..n]), steps[n]) && !AfterRun(cfg, role, steps[..n]).stopped))
  {
    hide AfterRun;
    hide Stops;
    var n := |steps| - 1;
    if k < n { assert steps[..n][..k] == steps[..k] && steps[..n][k] == steps[k]; }
  }

  lemma StepStopsIff(cfg: Config, s: System, step: SystemStep)
    ensures AfterStep(cfg, s, step).stopped <==> s.stopped || Stops(s, step)
  {
    hide SelfLocks;
    hide OnInternal;
    hide Timers;
    hide OnConnected;
    hide OnOrder;
    if step.PollTurn? && s.node.events != [] { TurnStopsIff(cfg, s.node, step.now); }
    if step.PollTimers? && (s.node.role.Managing? ==> Iterates(step.order, s.node.role.workers)) {
      TimersGo(cfg, s.node, step.order, step.now);
    }
  }
}

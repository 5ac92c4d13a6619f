/**
 Three runs a node can meet, made of events its peer can send: a `NotMine` that overtakes, a request
 that stops a manager, and an answer that stops a worker.
 */
module RelationshipExamples {
  import opened Base
  import opened Relationship
  import opened RelationshipRuns
  import Substreams

  /** A receivable run that leads to `s`. */
  ghost predicate Reaches(cfg: Config, role: Role, steps: seq<SystemStep>, s: System) {
    AfterRun(cfg, role, steps) == s && Receivable(cfg, role, steps)
  }

  lemma Go(cfg: Config, role: Role, steps: seq<SystemStep>, s: System, step: SystemStep)
    requires Reaches(cfg, role, steps, s)
    requires step.Deliver? && !step.event.IsRequest() ==> (step.peer, step.event.userData) in s.asked
    ensures Reaches(cfg, role, steps + [step], AfterStep(cfg, s, step))
  {
    hide AfterStep;
    var more := steps + [step];
    assert more[..|steps|] == steps;
    forall k | 0 <= k < |more| && more[k].Deliver? && !more[k].event.IsRequest()
      ensures (more[k].peer, more[k].event.userData) in AfterRun(cfg, role, more[..k]).asked
    {
      if k < |steps| { assert more[..k] == steps[..k] && more[k] == steps[k]; }
    }
  }

  lemma GoTwo(cfg: Config, role: Role, steps: seq<SystemStep>, s: System, a: SystemStep, b: SystemStep)
    requires Reaches(cfg, role, steps, s)
    requires a.Deliver? && !a.event.IsRequest() ==> (a.peer, a.event.userData) in s.asked
    requires !b.Deliver?
    ensures Reaches(cfg, role, steps + [a, b], AfterStep(cfg, AfterStep(cfg, s, a), b))
  {
    hide AfterStep;
    hide Reaches;
    Go(cfg, role, steps, s, a);
    Go(cfg, role, steps + [a], AfterStep(cfg, s, a), b);
    assert steps + [a] + [b] == steps + [a, b];
  }

  // ---------------------------------------------------------------- one turn

  /** A running node with an empty queue. */
  ghost predicate Idle(s: System) {
    s.node.events == [] && !s.stopped
  }

  lemma TurnOn(cfg: Config, s: System, e: Internal, rest: seq<Internal>, now: int)
    requires !s.stopped && s.node.events == [e] + rest
    ensures AfterStep(cfg, s, PollTurn(now)) == Emit(s, OnInternal(cfg, s.node.(events := rest), e, now))
  {
    assert s.node.events[1..] == rest;
  }

  /** An event of the peer, handled at once. */
  lemma Handled(cfg: Config, s: System, p: PeerId, event: HandlerOut, now: int)
    requires Idle(s)
    ensures AfterStep(cfg, AfterStep(cfg, s, Deliver(p, event)), PollTurn(now))
            == Emit(s.(asked := if event.IsRequest() then s.asked else s.asked - multiset{(p, event.userData)}),
                    OnHandler(cfg, s.node, p, event, now))
  {
    hide OnHandler;
    var s1 := AfterStep(cfg, s, Deliver(p, event));
    assert [] + [FromHandler(p, event)] == [FromHandler(p, event)] + [];
    TurnOn(cfg, s1, FromHandler(p, event), [], now);
    assert s1.node.(events := []) == s.node;
  }

  /** The announcement left in the queue, made. */
  lemma Said(cfg: Config, s: System, out: Out, now: int)
    requires !s.stopped && s.node.events == [Act(Generate(out))]
    ensures AfterStep(cfg, s, PollTurn(now)) == s.(emitted := s.emitted + [out], node := s.node.(events := []))
  {
    assert s.node.events == [Act(Generate(out))] + [];
    TurnOn(cfg, s, Act(Generate(out)), [], now);
  }

  // ---------------------------------------------------------------- the start of every run

  function Greet(p: PeerId): seq<SystemStep> {
    [Connected(p), PollTurn(0), PollTurn(0)]
  }

  /** A connected peer has been asked for its type, in query 0. */
  function Greeted(role: Role, p: PeerId): System {
    System([PeerConnected(p)], Node(role, map[p := NEW_PEER.(connected := true)], [], 1, false), multiset{(p, 0)}, false)
  }

  lemma GreetRuns(cfg: Config, role: Role, p: PeerId)
    ensures Reaches(cfg, role, Greet(p), Greeted(role, p))
  {
    hide AfterStep;
    var s0 := AfterRun(cfg, role, []);
    GreetTurns(cfg, s0, p);
    assert Reaches(cfg, role, [], s0);
    GoTwo(cfg, role, [], s0, Connected(p), PollTurn(0));
    Go(cfg, role, [] + [Connected(p), PollTurn(0)], AfterStep(cfg, AfterStep(cfg, s0, Connected(p)), PollTurn(0)), PollTurn(0));
    assert [] + [Connected(p), PollTurn(0)] + [PollTurn(0)] == Greet(p);
  }

  lemma GreetTurns(cfg: Config, s0: System, p: PeerId)
    requires s0 == System([], Node(s0.node.role, map[], [], 0, false), multiset{}, false)
    ensures AfterStep(cfg, AfterStep(cfg, AfterStep(cfg, s0, Connected(p)), PollTurn(0)), PollTurn(0)) == Greeted(s0.node.role, p)
  {
    hide Reaches;
    var peers := map[p := NEW_PEER.(connected := true)];
    var ask, said := AskNodeType(p), Act(Generate(PeerConnected(p)));
    GreetConnects(s0.node, p);
    var s1 := s0.(node := s0.node.(peers := peers, events := [ask, said]));
    assert AfterStep(cfg, s0, Connected(p)) == s1;
    assert s1.node.events == [ask] + [said];
    TurnOn(cfg, s1, ask, [said], 0);
    var s2 := System([], Node(s0.node.role, peers, [said], 1, false), multiset{(p, 0)}, false);
    assert peers[p := peers[p]] == peers;
    assert multiset{} + multiset{(p, 0)} == multiset{(p, 0)};
    hide AfterStep;
    assert AfterStep(cfg, s1, PollTurn(0)) == s2;
    Said(cfg, s2, PeerConnected(p), 0);
    assert [] + [PeerConnected(p)] == [PeerConnected(p)];
  }

  lemma GreetConnects(n: Node, p: PeerId)
    requires n.peers == map[] && n.events == []
    ensures OnConnected(n, p) == n.(peers := map[p := NEW_PEER.(connected := true)],
                                    events := [AskNodeType(p), Act(Generate(PeerConnected(p)))])
  {
    assert n.peers[p := NEW_PEER.(connected := true, pending := [])] == map[p := NEW_PEER.(connected := true)];
    assert OnConnected(n, p).events == [AskNodeType(p), Act(Generate(PeerConnected(p)))];
  }

  // ---------------------------------------------------------------- a request that stops a manager

  /** The peer asks for a manager before it says what it is. */
  function EarlyRequest(p: PeerId, specs: Specs): seq<SystemStep> {
    Greet(p) + [Deliver(p, HandlerOut.ManagerRequest(specs, 0)), PollTurn(0)]
  }

  lemma EarlyRequestStops(cfg: Config, p: PeerId, specs: Specs)
    ensures Receivable(cfg, Managing(map[]), EarlyRequest(p, specs))
    ensures AfterRun(cfg, Managing(map[]), EarlyRequest(p, specs)).stopped
  {
    var request := HandlerOut.ManagerRequest(specs, 0);
    var s := Greeted(Managing(map[]), p);
    GreetRuns(cfg, Managing(map[]), p);
    GoTwo(cfg, Managing(map[]), Greet(p), s, Deliver(p, request), PollTurn(0));
    Handled(cfg, s, p, request, 0);
  }

  // ---------------------------------------------------------------- an answer that stops a worker

  /** A worker finds its manager, pings it when the interval is over, and gets the wrong kind of answer. */
  function WrongAnswer(cfg: Config, p: PeerId, accepted: bool): seq<SystemStep> {
    Greet(p)
    + [Deliver(p, HandlerOut.NodeTypeAnswer(Substreams.Manager, 0)), PollTurn(0)] + [PollTurn(0)]
    + [Deliver(p, HandlerOut.ManagerAnswer(true, 1)), PollTurn(0)]
    + [PollTimers([], cfg.interval + 1), PollTurn(cfg.interval + 1)]
    + [Deliver(p, HandlerOut.ManagerAnswer(accepted, 2)), PollTurn(cfg.interval + 1)]
  }

  function Peered(p: PeerId, t: NodeType): map<PeerId, Peer> {
    map[p := NEW_PEER.(connected := true, nodeType := Some(t))]
  }

  lemma WrongAnswerStops(cfg: Config, p: PeerId, accepted: bool)
    requires cfg.authorized(p, {})
    ensures Receivable(cfg, Working(None), WrongAnswer(cfg, p, accepted))
    ensures AfterRun(cfg, Working(None), WrongAnswer(cfg, p, accepted)).stopped
  {
    hide AfterStep;
    hide Reaches;
    hide OnHandler;
    var role, t := Working(None), cfg.interval + 1;
    GreetRuns(cfg, role, p);
    var known := HandlerOut.NodeTypeAnswer(Substreams.Manager, 0);
    var s1 := FoundManager(cfg, p);
    GoTwo(cfg, role, Greet(p), Greeted(role, p), Deliver(p, known), PollTurn(0));
    var a := Greet(p) + [Deliver(p, known), PollTurn(0)];
    Said(cfg, s1, PeerHasNewType(p, Substreams.Manager), 0);
    var s2 := s1.(emitted := s1.emitted + [PeerHasNewType(p, Substreams.Manager)], node := s1.node.(events := []));
    Go(cfg, role, a, s1, PollTurn(0));
    var b := a + [PollTurn(0)];
    var s3 := TakesManager(cfg, s2, p);
    GoTwo(cfg, role, b, s2, Deliver(p, HandlerOut.ManagerAnswer(true, 1)), PollTurn(0));
    var c := b + [Deliver(p, HandlerOut.ManagerAnswer(true, 1)), PollTurn(0)];
    var s4 := PingsManager(cfg, s3, p);
    GoTwo(cfg, role, c, s3, PollTimers([], t), PollTurn(t));
    var d := c + [PollTimers([], t), PollTurn(t)];
    AnswerStopsIt(cfg, s4, p, accepted, t);
    GoTwo(cfg, role, d, s4, Deliver(p, HandlerOut.ManagerAnswer(accepted, 2)), PollTurn(t));
    ReachedReceivable(cfg, role, d + [Deliver(p, HandlerOut.ManagerAnswer(accepted, 2)), PollTurn(t)]);
  }

  lemma ReachedReceivable(cfg: Config, role: Role, steps: seq<SystemStep>)
    ensures forall s :: Reaches(cfg, role, steps, s) ==> Receivable(cfg, role, steps) && AfterRun(cfg, role, steps) == s
  {
  }

  lemma FoundManager(cfg: Config, p: PeerId) returns (s: System)
    requires cfg.authorized(p, {})
    ensures var known := HandlerOut.NodeTypeAnswer(Substreams.Manager, 0);
            s == AfterStep(cfg, AfterStep(cfg, Greeted(Working(None), p), Deliver(p, known)), PollTurn(0))
    ensures s == System([PeerConnected(p)],
                        Node(Working(None), Peered(p, Substreams.Manager),
                             [Act(Generate(PeerHasNewType(p, Substreams.Manager)))], 2, false),
                        multiset{(p, 1)}, false)
  {
    hide AfterStep;
    hide OnHandler;
    var known := HandlerOut.NodeTypeAnswer(Substreams.Manager, 0);
    var g := Greeted(Working(None), p);
    Handled(cfg, g, p, known, 0);
    FoundNode(cfg, g.node, p);
    s := AfterStep(cfg, AfterStep(cfg, g, Deliver(p, known)), PollTurn(0));
    assert multiset{(p, 0)} - multiset{(p, 0)} + multiset{(p, 1)} == multiset{(p, 1)};
  }

  lemma FoundNode(cfg: Config, n: Node, p: PeerId)
    requires cfg.authorized(p, {}) && n == Greeted(Working(None), p).node
    ensures OnHandler(cfg, n, p, HandlerOut.NodeTypeAnswer(Substreams.Manager, 0), 0)
            == Reaction(n.(peers := Peered(p, Substreams.Manager),
                           events := [Act(Generate(PeerHasNewType(p, Substreams.Manager)))],
                           nextQuery := 2),
                        Ready(Notify(p, HandlerIn.ManagerRequest(cfg.specs, 1))))
  {
    assert WithPeer(n, p, PeerAt(n, p)) == n;
    assert n.peers[p := n.peers[p].(nodeType := Some(Substreams.Manager))] == Peered(p, Substreams.Manager);
    assert [] + [Act(Generate(PeerHasNewType(p, Substreams.Manager)))] == [Act(Generate(PeerHasNewType(p, Substreams.Manager)))];
  }

  lemma TakesManager(cfg: Config, s2: System, p: PeerId) returns (s: System)
    requires cfg.authorized(p, {}) && Idle(s2) && s2.asked == multiset{(p, 1)}
    requires s2.node == Node(Working(None), Peered(p, Substreams.Manager), [], 2, false)
    ensures s == AfterStep(cfg, AfterStep(cfg, s2, Deliver(p, HandlerOut.ManagerAnswer(true, 1))), PollTurn(0))
    ensures Idle(s) && s.asked == multiset{}
    ensures s.node == Node(Working(Some((p, Link(0, 0)))), Peered(p, Substreams.Manager), [], 2, false)
  {
    hide AfterStep;
    Handled(cfg, s2, p, HandlerOut.ManagerAnswer(true, 1), 0);
    s := AfterStep(cfg, AfterStep(cfg, s2, Deliver(p, HandlerOut.ManagerAnswer(true, 1))), PollTurn(0));
    assert WithPeer(s2.node, p, PeerAt(s2.node, p)) == s2.node;
  }

  lemma PingsManager(cfg: Config, s3: System, p: PeerId) returns (s: System)
    requires Idle(s3) && s3.asked == multiset{}
    requires s3.node == Node(Working(Some((p, Link(0, 0)))), Peered(p, Substreams.Manager), [], 2, false)
    ensures s == AfterStep(cfg, AfterStep(cfg, s3, PollTimers([], cfg.interval + 1)), PollTurn(cfg.interval + 1))
    ensures Idle(s) && s.asked == multiset{(p, 2)}
    ensures s.node == Node(Working(Some((p, Link(cfg.interval + 1, 0)))), Peered(p, Substreams.Manager), [], 3, false)
  {
    var t := cfg.interval + 1;
    var s' := AfterStep(cfg, s3, PollTimers([], t));
    var ping := Act(Notify(p, HandlerIn.ManagerPing(2)));
    assert s3.node.peers[p := s3.node.peers[p]] == s3.node.peers;
    assert s'.node.events == [ping] + [];
    TurnOn(cfg, s', ping, [], t);
    s := AfterStep(cfg, s', PollTurn(t));
  }

  lemma AnswerStopsIt(cfg: Config, s: System, p: PeerId, accepted: bool, t: int)
    requires Idle(s) && Holds(s.node.role, p) && s.node.role.Working? && !s.node.shutting
    requires s.node.peers == Peered(p, Substreams.Manager)
    ensures AfterStep(cfg, AfterStep(cfg, s, Deliver(p, HandlerOut.ManagerAnswer(accepted, 2))), PollTurn(t)).stopped
  {
    hide AfterStep;
    Handled(cfg, s, p, HandlerOut.ManagerAnswer(accepted, 2), t);
  }

  // ---------------------------------------------------------------- an overtaking

  /** A peer says it is a worker, is hired, pinged, leaves, and asks again just before its late `NotMine`. */
  function Overtaking(cfg: Config, p: PeerId, specs: Specs): seq<SystemStep> {
    var t := cfg.interval + 1;
    Greet(p)
    + [Deliver(p, HandlerOut.NodeTypeAnswer(Substreams.Worker, 0)), PollTurn(0)] + [PollTurn(0)]
    + [Deliver(p, HandlerOut.ManagerRequest(specs, 0)), PollTurn(0)] + [PollTurn(0)]
    + [PollTimers([p], t), PollTurn(t)]
    + [Deliver(p, HandlerOut.ManagerBye(1)), PollTurn(t)] + [PollTurn(t)]
    + [Deliver(p, HandlerOut.ManagerRequest(specs, 2))] + [Deliver(p, HandlerOut.NotMine(1))]
    + [PollTurn(t)] + [PollTurn(t)] + [PollTurn(t)]
  }

  function Hired(p: PeerId, specs: Option<Specs>): map<PeerId, Peer> {
    map[p := NEW_PEER.(connected := true, nodeType := Some(Substreams.Worker), specs := specs)]
  }

  /** A manager with nothing to do, its workers, and what the peer was asked. */
  ghost predicate Manages(s: System, emitted: seq<Out>, p: PeerId, specs: Option<Specs>, workers: map<PeerId, Link>,
                          queries: nat, asked: multiset<(PeerId, int)>) {
    s == System(emitted, Node(Managing(workers), Hired(p, specs), [], queries, false), asked, false)
  }

  lemma FindsWorker(cfg: Config, p: PeerId) returns (s: System)
    ensures Reaches(cfg, Managing(map[]), Greet(p) + [Deliver(p, HandlerOut.NodeTypeAnswer(Substreams.Worker, 0)), PollTurn(0)]
                                          + [PollTurn(0)], s)
    ensures Manages(s, [PeerConnected(p), PeerHasNewType(p, Substreams.Worker)], p, None, map[], 1, multiset{})
  {
    hide AfterStep;
    hide Reaches;
    var role, g := Managing(map[]), Greeted(Managing(map[]), p);
    var known, said := HandlerOut.NodeTypeAnswer(Substreams.Worker, 0), PeerHasNewType(p, Substreams.Worker);
    GreetRuns(cfg, role, p);
    GoTwo(cfg, role, Greet(p), g, Deliver(p, known), PollTurn(0));
    Handled(cfg, g, p, known, 0);
    assert WithPeer(g.node, p, PeerAt(g.node, p)) == g.node;
    assert g.node.peers[p := g.node.peers[p].(nodeType := Some(Substreams.Worker))] == Hired(p, None);
    var s1 := System([PeerConnected(p)], Node(role, Hired(p, None), [Act(Generate(said))], 1, false), multiset{}, false);
    assert AfterStep(cfg, AfterStep(cfg, g, Deliver(p, known)), PollTurn(0)) == s1;
    Said(cfg, s1, said, 0);
    Go(cfg, role, Greet(p) + [Deliver(p, known), PollTurn(0)], s1, PollTurn(0));
    s := AfterStep(cfg, s1, PollTurn(0));
  }

  /** A request of the peer is accepted, and announced. */
  lemma Hires(cfg: Config, steps: seq<SystemStep>, s0: System, emitted: seq<Out>, p: PeerId, specs: Specs) returns (s: System)
    requires Reaches(cfg, Managing(map[]), steps, s0)
    requires Manages(s0, emitted, p, None, map[], 1, multiset{})
    ensures Reaches(cfg, Managing(map[]), steps + [Deliver(p, HandlerOut.ManagerRequest(specs, 0)), PollTurn(0)] + [PollTurn(0)], s)
    ensures Manages(s, emitted + [WorkerNew(p, specs)], p, Some(specs), map[p := Link(0, 0)], 1, multiset{})
  {
    hide AfterStep;
    hide Reaches;
    var role, request := Managing(map[]), HandlerOut.ManagerRequest(specs, 0);
    GoTwo(cfg, role, steps, s0, Deliver(p, request), PollTurn(0));
    Handled(cfg, s0, p, request, 0);
    RequestQueues(s0.node, p, specs);
    var s1 := System(emitted, Node(Managing(map[p := Link(0, 0)]), Hired(p, Some(specs)),
                                   [Act(Generate(WorkerNew(p, specs)))], 1, false), multiset{}, false);
    assert WithPeer(s0.node, p, PeerAt(s0.node, p)) == s0.node;
    assert emitted + [] == emitted;
    assert AfterStep(cfg, AfterStep(cfg, s0, Deliver(p, request)), PollTurn(0)) == s1;
    Said(cfg, s1, WorkerNew(p, specs), 0);
    Go(cfg, role, steps + [Deliver(p, request), PollTurn(0)], s1, PollTurn(0));
    s := AfterStep(cfg, s1, PollTurn(0));
  }

  lemma RequestQueues(n: Node, p: PeerId, specs: Specs)
    requires n.role == Managing(map[]) && n.peers == Hired(p, None) && n.events == []
    ensures OnManagerRequest(n, p, specs, 0, 0)
            == Reaction(n.(role := Managing(map[p := Link(0, 0)]), peers := Hired(p, Some(specs)),
                           events := [Act(Generate(WorkerNew(p, specs)))]),
                        Ready(Notify(p, HandlerIn.ManagerAnswer(true, 0))))
  {
    assert n.peers[p := n.peers[p].(specs := Some(specs))] == Hired(p, Some(specs));
    assert map[][p := Link(0, 0)] == map[p := Link(0, 0)];
    assert [] + [Act(Generate(WorkerNew(p, specs)))] == [Act(Generate(WorkerNew(p, specs)))];
  }

  /** The worker has been silent for the interval: it is pinged, in query 1. */
  lemma PingsWorker(cfg: Config, steps: seq<SystemStep>, s0: System, emitted: seq<Out>, p: PeerId, specs: Specs)
    returns (s: System)
    requires Reaches(cfg, Managing(map[]), steps, s0)
    requires Manages(s0, emitted, p, Some(specs), map[p := Link(0, 0)], 1, multiset{})
    ensures Reaches(cfg, Managing(map[]), steps + [PollTimers([p], cfg.interval + 1), PollTurn(cfg.interval + 1)], s)
    ensures Manages(s, emitted, p, Some(specs), map[p := Link(cfg.interval + 1, 0)], 2, multiset{(p, 1)})
  {
    hide Reaches;
    var t := cfg.interval + 1;
    GoTwo(cfg, Managing(map[]), steps, s0, PollTimers([p], t), PollTurn(t));
    var ping := Act(Notify(p, HandlerIn.ManagerPing(1)));
    PingTimers(cfg, s0.node, p, Some(specs));
    var s1 := s0.(node := Node(Managing(map[p := Link(t, 0)]), Hired(p, Some(specs)), [ping], 2, false));
    assert AfterStep(cfg, s0, PollTimers([p], t)) == s1;
    assert s1.node.events == [ping] + [];
    TurnOn(cfg, s1, ping, [], t);
    assert emitted + [] == emitted;
    s := AfterStep(cfg, s1, PollTurn(t));
  }

  lemma PingTimers(cfg: Config, n: Node, p: PeerId, specs: Option<Specs>)
    requires n == Node(Managing(map[p := Link(0, 0)]), Hired(p, specs), [], 1, false)
    ensures Timers(cfg, n, [p], cfg.interval + 1)
            == Reaction(Node(Managing(map[p := Link(cfg.interval + 1, 0)]), Hired(p, specs),
                             [Act(Notify(p, HandlerIn.ManagerPing(1)))], 2, false), Pending)
  {
    hide OnVerdict;
    hide OnVerdicts;
    hide Verdicts;
    var t := cfg.interval + 1;
    var n1 := n.(role := Managing(map[p := Link(t, 0)]));
    assert (map q | q in n.role.workers :: Checked(cfg, n.role.workers[q], t)) == map[p := Link(t, 0)];
    OneVerdict(cfg, n.role.workers, p, t);
    OneOnVerdict(n1, p, MustPing);
    PingQueues(n1, p, specs);
  }

  lemma OneVerdict(cfg: Config, workers: map<PeerId, Link>, p: PeerId, t: int)
    requires p in workers && Check(cfg, workers[p], t) == MustPing
    ensures Verdicts(cfg, workers, [p], t) == [(p, MustPing)]
  {
    hide Check;
    assert [p][..0] == [];
  }

  lemma OneOnVerdict(n: Node, p: PeerId, verdict: Verdict)
    ensures OnVerdicts(n, [(p, verdict)]) == OnVerdict(n, p, verdict)
  {
    hide OnVerdict;
    assert [(p, verdict)][..0] == [];
  }

  lemma PingQueues(n: Node, p: PeerId, specs: Option<Specs>)
    requires n.peers == Hired(p, specs) && n.events == [] && n.nextQuery == 1 && !n.shutting
    ensures OnVerdict(n, p, MustPing)
            == Reaction(n.(events := [Act(Notify(p, HandlerIn.ManagerPing(1)))], nextQuery := 2), Pending)
  {
    assert n.peers[p := n.peers[p]] == n.peers;
    assert [] + [Act(Notify(p, HandlerIn.ManagerPing(1)))] == [Act(Notify(p, HandlerIn.ManagerPing(1)))];
  }

  /** The worker leaves without answering. */
  lemma Leaves(cfg: Config, steps: seq<SystemStep>, s0: System, emitted: seq<Out>, p: PeerId, specs: Specs) returns (s: System)
    requires Reaches(cfg, Managing(map[]), steps, s0)
    requires Manages(s0, emitted, p, Some(specs), map[p := Link(cfg.interval + 1, 0)], 2, multiset{(p, 1)})
    ensures var t := cfg.interval + 1;
            Reaches(cfg, Managing(map[]), steps + [Deliver(p, HandlerOut.ManagerBye(1)), PollTurn(t)] + [PollTurn(t)], s)
    ensures Manages(s, emitted + [WorkerBye(p)], p, Some(specs), map[], 2, multiset{(p, 1)})
  {
    hide AfterStep;
    hide Reaches;
    var role, bye, t := Managing(map[]), HandlerOut.ManagerBye(1), cfg.interval + 1;
    GoTwo(cfg, role, steps, s0, Deliver(p, bye), PollTurn(t));
    Handled(cfg, s0, p, bye, t);
    var s1 := System(emitted, Node(Managing(map[]), Hired(p, Some(specs)), [Act(Generate(WorkerBye(p)))], 2, false),
                     multiset{(p, 1)}, false);
    assert WithPeer(s0.node, p, PeerAt(s0.node, p)) == s0.node;
    assert map[p := Link(t, 0)] - {p} == map[];
    assert emitted + [] == emitted && [] + [Act(Generate(WorkerBye(p)))] == [Act(Generate(WorkerBye(p)))];
    assert AfterStep(cfg, AfterStep(cfg, s0, Deliver(p, bye)), PollTurn(t)) == s1;
    Said(cfg, s1, WorkerBye(p), t);
    Go(cfg, role, steps + [Deliver(p, bye), PollTurn(t)], s1, PollTurn(t));
    s := AfterStep(cfg, s1, PollTurn(t));
  }

  /** It asks again, and its answer to the ping arrives right after. */
  lemma ComesBack(cfg: Config, s0: System, emitted: seq<Out>, p: PeerId, specs: Specs) returns (s: System)
    requires Manages(s0, emitted, p, Some(specs), map[], 2, multiset{(p, 1)})
    ensures var request, late := Deliver(p, HandlerOut.ManagerRequest(specs, 2)), Deliver(p, HandlerOut.NotMine(1));
            s == AfterStep(cfg, AfterStep(cfg, AfterStep(cfg, s0, request), late), PollTurn(cfg.interval + 1))
    ensures var t := cfg.interval + 1;
            s == System(emitted, Node(Managing(map[p := Link(t, t)]), Hired(p, Some(specs)),
                                      [FromHandler(p, HandlerOut.NotMine(1)), Act(Generate(WorkerNew(p, specs)))], 2, false),
                        multiset{}, false)
  {
    var t := cfg.interval + 1;
    var request, late := FromHandler(p, HandlerOut.ManagerRequest(specs, 2)), FromHandler(p, HandlerOut.NotMine(1));
    var s2 := s0.(node := s0.node.(events := [request, late]), asked := multiset{});
    assert AfterStep(cfg, AfterStep(cfg, s0, Deliver(p, request.event)), Deliver(p, late.event)) == s2;
    assert s2.node.events == [request] + [late];
    hide AfterStep;
    TurnOn(cfg, s2, request, [late], t);
    s := AfterStep(cfg, s2, PollTurn(t));
    var n := s2.node.(events := [late]);
    assert WithPeer(n, p, PeerAt(n, p)) == n;
    assert n.peers[p := n.peers[p].(specs := Some(specs))] == Hired(p, Some(specs));
    assert map[][p := Link(t, t)] == map[p := Link(t, t)];
    assert [late] + [Act(Generate(WorkerNew(p, specs)))] == [late, Act(Generate(WorkerNew(p, specs)))];
    assert emitted + [] == emitted;
  }

  lemma LateOvertakes(cfg: Config, s0: System, p: PeerId, specs: Specs) returns (s: System)
    requires !s0.stopped && s0.asked == multiset{} && s0.node.peers == Hired(p, Some(specs))
    requires s0.node.events == [FromHandler(p, HandlerOut.NotMine(1)), Act(Generate(WorkerNew(p, specs)))]
    requires s0.node.role.Managing? && s0.node.role.workers.Keys == {p}
    ensures var t := cfg.interval + 1;
            s == AfterStep(cfg, AfterStep(cfg, s0, PollTurn(t)), PollTurn(t))
    ensures s.emitted == s0.emitted + [WorkerBye(p)] + [WorkerNew(p, specs)]
    ensures s.node.events == [] && s.node.role == Managing(map[]) && !s.stopped
  {
    var t := cfg.interval + 1;
    var late, said := FromHandler(p, HandlerOut.NotMine(1)), Act(Generate(WorkerNew(p, specs)));
    assert s0.node.events == [late] + [said];
    TurnOn(cfg, s0, late, [said], t);
    var n := s0.node.(events := [said]);
    assert WithPeer(n, p, PeerAt(n, p)) == n;
    assert s0.node.role.workers - {p} == map[];
    var s1 := AfterStep(cfg, s0, PollTurn(t));
    hide AfterStep;
    Said(cfg, s1, WorkerNew(p, specs), t);
    s := AfterStep(cfg, s1, PollTurn(t));
  }

  /**
   The program is told that a worker it does not list is gone, which it answers with a panic, and then
   that this worker is new, while the node has no worker.
   */
  lemma OvertakingHappens(cfg: Config, p: PeerId, specs: Specs)
    ensures Receivable(cfg, Managing(map[]), Overtaking(cfg, p, specs))
    ensures var s := AfterRun(cfg, Managing(map[]), Overtaking(cfg, p, specs));
            && s.emitted == [PeerConnected(p), PeerHasNewType(p, Substreams.Worker), WorkerNew(p, specs), WorkerBye(p),
                             WorkerBye(p), WorkerNew(p, specs)]
            && !Lists(TableAfter(s.emitted[..4]), p) && Lists(TableAfter(s.emitted), p)
            && s.node.events == [] && s.node.role == Managing(map[]) && !s.stopped
  {
    hide AfterStep;
    hide Reaches;
    hide TableAfter;
    var role, t := Managing(map[]), cfg.interval + 1;
    var a := Greet(p) + [Deliver(p, HandlerOut.NodeTypeAnswer(Substreams.Worker, 0)), PollTurn(0)] + [PollTurn(0)];
    var s1 := FindsWorker(cfg, p);
    var b := a + [Deliver(p, HandlerOut.ManagerRequest(specs, 0)), PollTurn(0)] + [PollTurn(0)];
    var s2 := Hires(cfg, a, s1, s1.emitted, p, specs);
    var c := b + [PollTimers([p], t), PollTurn(t)];
    var s3 := PingsWorker(cfg, b, s2, s2.emitted, p, specs);
    var d := c + [Deliver(p, HandlerOut.ManagerBye(1)), PollTurn(t)] + [PollTurn(t)];
    var s4 := Leaves(cfg, c, s3, s3.emitted, p, specs);
    var request, late := Deliver(p, HandlerOut.ManagerRequest(specs, 2)), Deliver(p, HandlerOut.NotMine(1));
    var s5 := ComesBack(cfg, s4, s4.emitted, p, specs);
    Go(cfg, role, d, s4, request);
    DeliverAsks(cfg, s4, request);
    Go(cfg, role, d + [request], AfterStep(cfg, s4, request), late);
    Go(cfg, role, d + [request] + [late], AfterStep(cfg, AfterStep(cfg, s4, request), late), PollTurn(t));
    var s6 := LateOvertakes(cfg, s5, p, specs);
    Go(cfg, role, d + [request] + [late] + [PollTurn(t)], s5, PollTurn(t));
    Go(cfg, role, d + [request] + [late] + [PollTurn(t)] + [PollTurn(t)], AfterStep(cfg, s5, PollTurn(t)), PollTurn(t));
    assert Overtaking(cfg, p, specs) == d + [request] + [late] + [PollTurn(t)] + [PollTurn(t)] + [PollTurn(t)];
    ReachedReceivable(cfg, role, Overtaking(cfg, p, specs));
    OvertakingTable(p, specs, s6.emitted);
  }

  lemma DeliverAsks(cfg: Config, s: System, step: SystemStep)
    requires step.Deliver? && step.event.IsRequest() && !s.stopped
    ensures AfterStep(cfg, s, step).asked == s.asked
  {
  }

  lemma OvertakingTable(p: PeerId, specs: Specs, emitted: seq<Out>)
    requires emitted == [PeerConnected(p), PeerHasNewType(p, Substreams.Worker), WorkerNew(p, specs), WorkerBye(p),
                         WorkerBye(p), WorkerNew(p, specs)]
    ensures !Lists(TableAfter(emitted[..4]), p) && Lists(TableAfter(emitted), p)
  {
    hide TableAfter;
    TableReplays(emitted[..4]);
    TableReplays(emitted);
    assert emitted[..4][..3] == emitted[..3];
    assert Replay({}, emitted[..4]) == After(Replay({}, emitted[..3]), WorkerBye(p));
  }
}

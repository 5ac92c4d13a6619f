/**
 The substreams of one connection: what each does when polled, and how a poll goes through all of
 them. What the network answers is an arbitrary sequence of `Env`, one for each step.
 */
module Substreams {
  import opened Base

  // ---------------------------------------------------------------- messages

  type UserData = int

  datatype NodeType = Manager | Worker

  /** Prices, memory, network speed and program kinds of a worker are carried along unread. */
  datatype Specs = Specs(cpuCount: uint64)

  /** The protocol between workers and managers; an identifier that does not parse is `None`. */
  datatype Message =
    | NodeTypeRequest(code: int)
    | NodeTypeAnswer(code: int)
    | ManagerRequest(specs: Specs)
    | ManagerAnswer(accepted: bool)
    | ManagerBye
    | ManagerPing
    | ManagerPong
    | NotMine
    | Ack
    | TasksExecute(tasks: seq<Bytes>)
    | TasksPing(ids: seq<Option<Id>>)
    | TasksPong(statuses: seq<(Option<Id>, Bytes)>)
    | TasksAbord(ids: seq<Option<Id>>)
    | TaskStatus(id: Option<Id>, status: Bytes)
    | Empty

  datatype QueryErr = Upgrade | UnexpectedMessage | Io | UnexpectedEof

  /** Events of the handler for the behaviour: requests of the peer, answers of the peer, errors. */
  datatype EventOut =
    | NodeTypeRequest(nodeType: NodeType, requestId: nat)
    | ManagerRequest(specs: Specs, requestId: nat)
    | ManagerBye(requestId: nat)
    | ManagerPing(requestId: nat)
    | TasksExecute(tasks: seq<Bytes>, requestId: nat)
    | TasksPing(taskIds: seq<Id>, requestId: nat)
    | TasksAbord(taskIds: seq<Id>, requestId: nat)
    | TaskStatus(taskId: Id, status: Bytes, requestId: nat)
    | NodeTypeAnswer(nodeType: NodeType, userData: UserData)
    | NotMine(userData: UserData)
    | ManagerAnswer(accepted: bool, userData: UserData)
    | ManagerPong(userData: UserData)
    | TasksPong(statuses: seq<(Id, Bytes)>, userData: UserData)
    | QueryError(error: QueryErr, userData: UserData)
  {
    predicate IsRequest() {
      NodeTypeRequest? || ManagerRequest? || ManagerBye? || ManagerPing? || TasksExecute? || TasksPing?
      || TasksAbord? || TaskStatus?
    }
  }

  datatype HandlerEvent = Open(msg: Message, user: Option<UserData>) | Custom(event: EventOut)

  /** An unknown code reads as the default of the protocol, `MANAGER`. */
  function NodeTypeOf(code: int): NodeType {
    if code == 1 then Worker else Manager
  }

  function Parsed(ids: seq<Option<Id>>): seq<Id> {
    if ids == [] then []
    else Parsed(ids[..|ids| - 1]) + (if ids[|ids| - 1].Some? then [ids[|ids| - 1].value] else [])
  }

  function ParsedStatuses(statuses: seq<(Option<Id>, Bytes)>): seq<(Id, Bytes)> {
    if statuses == [] then []
    else
      var last := statuses[|statuses| - 1];
      ParsedStatuses(statuses[..|statuses| - 1]) + (if last.0.Some? then [(last.0.value, last.1)] else [])
  }

  /** `process_request`. */
  function ProcessRequest(msg: Message, id: nat): (event: Option<EventOut>)
    ensures event.Some? ==> event.value.IsRequest() && event.value.requestId == id
  {
    match msg
    case NodeTypeRequest(code) => Some(EventOut.NodeTypeRequest(NodeTypeOf(code), id))
    case ManagerRequest(specs) => Some(EventOut.ManagerRequest(specs, id))
    case ManagerBye => Some(EventOut.ManagerBye(id))
    case ManagerPing => Some(EventOut.ManagerPing(id))
    case TasksExecute(tasks) => Some(EventOut.TasksExecute(tasks, id))
    case TasksPing(ids) => Some(EventOut.TasksPing(Parsed(ids), id))
    case TasksAbord(ids) => Some(EventOut.TasksAbord(Parsed(ids), id))
    case TaskStatus(taskId, status) => if taskId.Some? then Some(EventOut.TaskStatus(taskId.value, status, id)) else None
    case _ => None
  }

  /** `process_answer`: `None` for an acknowledgement and for anything that is not an answer. */
  function ProcessAnswer(msg: Message, user: UserData): (event: Option<EventOut>)
    ensures event.Some? ==> !event.value.IsRequest() && !event.value.QueryError? && event.value.userData == user
  {
    match msg
    case NodeTypeAnswer(code) => Some(EventOut.NodeTypeAnswer(NodeTypeOf(code), user))
    case NotMine => Some(EventOut.NotMine(user))
    case ManagerAnswer(accepted) => Some(EventOut.ManagerAnswer(accepted, user))
    case ManagerPong => Some(EventOut.ManagerPong(user))
    case TasksPong(statuses) => Some(EventOut.TasksPong(ParsedStatuses(statuses), user))
    case _ => None
  }

  // ---------------------------------------------------------------- one substream

  /** The stream of the library under a substream; only its identity matters. */
  type Sink = int

  datatype State =
    | OutPendingOpen(msg: Message, user: Option<UserData>)
    | OutPendingSend(sink: Sink, msg: Message, user: Option<UserData>)
    | OutPendingFlush(sink: Sink, user: Option<UserData>)
    | OutWaitingAnswer(sink: Sink, userData: UserData)
    | OutReportError(error: QueryErr, userData: UserData)
    | OutClosing(sink: Sink)
    | InWaitingMessage(id: nat, sink: Sink)
    | InWaitingUser(id: nat, sink: Sink)
    | InPendingSend(id: nat, sink: Sink, msg: Message)
    | InPendingFlush(id: nat, sink: Sink)
    | InClosing(sink: Sink)

  datatype Reply = Pending | Ready | Failed

  datatype Next = NotYet | Received(msg: Message) | Broken | End

  /** What the network answers to a poll, whichever of its ends is polled. */
  datatype Env = Env(ready: Reply, accepted: bool, flush: Reply, close: Reply, next: Next)

  datatype Step = Step(next: Option<State>, event: Option<HandlerEvent>, again: bool)

  function FailedQuery(error: QueryErr, user: Option<UserData>): Step {
    Step(None, if user.Some? then Some(Custom(QueryError(error, user.value))) else None, false)
  }

  /** `advance_substream`: the next state if any, an event if any, and whether to poll again. */
  function Advance(s: State, env: Env): Step {
    match s
    case OutPendingOpen(msg, user) => Step(None, Some(Open(msg, user)), false)
    case OutPendingSend(sink, msg, user) =>
      (match env.ready
       case Ready => if env.accepted then Step(Some(OutPendingFlush(sink, user)), None, true) else FailedQuery(Io, user)
       case Pending => Step(Some(s), None, false)
       case Failed => FailedQuery(Io, user))
    case OutPendingFlush(sink, user) =>
      (match env.flush
       case Ready => Step(Some(if user.Some? then OutWaitingAnswer(sink, user.value) else OutClosing(sink)), None, true)
       case Pending => Step(Some(s), None, false)
       case Failed => FailedQuery(Io, user))
    case OutWaitingAnswer(sink, user) =>
      (match env.next
       case Received(msg) =>
         var event := ProcessAnswer(msg, user);
         Step(Some(OutClosing(sink)), if event.Some? then Some(Custom(event.value)) else None, true)
       case NotYet => Step(Some(s), None, false)
       case Broken => FailedQuery(Io, Some(user))
       case End => FailedQuery(UnexpectedEof, Some(user)))
    case OutReportError(error, user) => FailedQuery(error, Some(user))
    case OutClosing(_) => Step(if env.close.Pending? then Some(s) else None, None, false)
    case InWaitingMessage(id, sink) =>
      (match env.next
       case Received(msg) =>
         var event := ProcessRequest(msg, id);
         if event.Some? then Step(Some(InWaitingUser(id, sink)), Some(Custom(event.value)), false)
         else Step(Some(InClosing(sink)), None, true)
       case NotYet => Step(Some(s), None, false)
       case _ => Step(None, None, false))
    case InWaitingUser(_, _) => Step(Some(s), None, false)
    case InPendingSend(id, sink, msg) =>
      (match env.ready
       case Ready => if env.accepted then Step(Some(InPendingFlush(id, sink)), None, true) else Step(None, None, false)
       case Pending => Step(Some(s), None, false)
       case Failed => Step(None, None, false))
    case InPendingFlush(id, sink) =>
      (match env.flush
       case Ready => Step(Some(InWaitingMessage(id, sink)), None, true)
       case Pending => Step(Some(s), None, false)
       case Failed => Step(None, None, false))
    case InClosing(_) => Step(if env.close.Pending? then Some(s) else None, None, false)
  }

  /** Polls left before a substream must wait; every poll that asks for another lowers it. */
  function Rank(s: State): nat {
    match s
    case OutPendingSend(_, _, _) => 3
    case OutPendingFlush(_, _) => 2
    case OutWaitingAnswer(_, _) => 1
    case InPendingSend(_, _, _) => 3
    case InPendingFlush(_, _) => 2
    case InWaitingMessage(_, _) => 1
    case _ => 0
  }

  /** Why the inner loop of `poll` ends after at most four turns. */
  lemma AgainLowersRank(s: State, env: Env)
    ensures var r := Advance(s, env); r.next.Some? && r.event.None? && r.again ==> Rank(r.next.value) < Rank(s)
  {
  }

  /** A query fails with an error of its stream, with its end, or because it could not be opened, and only then. */
  lemma FailsIff(s: State, env: Env, error: QueryErr, user: UserData)
    ensures Advance(s, env).event == Some(Custom(QueryError(error, user)))
            <==> || s == OutReportError(error, user)
                 || (s.OutPendingSend? && s.user == Some(user) && error == Io
                     && (env.ready.Failed? || (env.ready.Ready? && !env.accepted)))
                 || (s.OutPendingFlush? && s.user == Some(user) && error == Io && env.flush.Failed?)
                 || (s.OutWaitingAnswer? && s.userData == user && error == Io && env.next.Broken?)
                 || (s.OutWaitingAnswer? && s.userData == user && error == UnexpectedEof && env.next.End?)
  {
    hide Parsed;
    hide ParsedStatuses;
  }

  /** What the network answers when all goes well and the peer sends `msg`. */
  function Smooth(msg: Message): Env {
    Env(Ready, true, Ready, Ready, Received(msg))
  }

  /** On a network without faults, one poll sends a query, reads its answer and reports it, and then closes the stream. */
  lemma QueryAnswered(sink: Sink, msg: Message, user: UserData, answer: Message, tick: nat)
    ensures var r := Settle(OutPendingSend(sink, msg, Some(user)), (_: nat) => Smooth(answer), tick);
            var event := ProcessAnswer(answer, user);
            if event.Some? then r.event == Some(Custom(event.value)) && r.next == Some(OutClosing(sink)) && r.lost == []
            else r.event == None && r.next == None && r.lost == [user]
  {
    hide ProcessAnswer;
    var envs := (_: nat) => Smooth(answer);
    var event := ProcessAnswer(answer, user);
    var closing := Settle(OutClosing(sink), envs, tick + 3);
    var waiting := Settle(OutWaitingAnswer(sink, user), envs, tick + 2);
    assert closing.next == None && closing.event == None && closing.lost == [];
    assert waiting.event == if event.Some? then Some(Custom(event.value)) else None;
    var flushing := Settle(OutPendingFlush(sink, Some(user)), envs, tick + 1);
    assert flushing.event == waiting.event && flushing.next == waiting.next && flushing.lost == [] + waiting.lost;
    var sending := Settle(OutPendingSend(sink, msg, Some(user)), envs, tick);
    assert sending.event == flushing.event && sending.next == flushing.next && sending.lost == [] + flushing.lost;
  }

  /** On such a network an answer is sent and the stream takes the next request of the peer, in one poll. */
  lemma AnswerSent(id: nat, sink: Sink, msg: Message, request: Message, tick: nat)
    ensures var r := Settle(InPendingSend(id, sink, msg), (_: nat) => Smooth(request), tick);
            var event := ProcessRequest(request, id);
            if event.Some? then r.event == Some(Custom(event.value)) && r.next == Some(InWaitingUser(id, sink))
            else r.event == None && r.next == None
  {
    hide ProcessRequest;
    var envs := (_: nat) => Smooth(request);
    var event := ProcessRequest(request, id);
    var closing := Settle(InClosing(sink), envs, tick + 3);
    assert closing.next == None && closing.event == None;
    var waiting := Settle(InWaitingMessage(id, sink), envs, tick + 2);
    assert waiting.event == if event.Some? then Some(Custom(event.value)) else None;
    var flushing := Settle(InPendingFlush(id, sink), envs, tick + 1);
    assert flushing.event == waiting.event && flushing.next == waiting.next;
    var sending := Settle(InPendingSend(id, sink, msg), envs, tick);
    assert sending.event == flushing.event && sending.next == flushing.next;
  }

  // ---------------------------------------------------------------- all substreams

  /** Queries that end without a word: acknowledged, or answered with anything but an answer. */
  function Lost(s: State, env: Env): seq<UserData> {
    if s.OutWaitingAnswer? && env.next.Received? && ProcessAnswer(env.next.msg, s.userData).None? then [s.userData] else []
  }

  /** `lost` lists the user data of the queries that ended without an event. */
  datatype Settled = Settled(next: Option<State>, event: Option<HandlerEvent>, lost: seq<UserData>, tick: nat)

  /** The inner loop of `poll`: one substream until it waits, ends or says something. */
  function Settle(s: State, envs: nat -> Env, tick: nat): Settled
    decreases Rank(s)
  {
    var r := Advance(s, envs(tick));
    if r.next.Some? && r.event.None? && r.again then
      AgainLowersRank(s, envs(tick));
      var rest := Settle(r.next.value, envs, tick + 1);
      Settled(rest.next, rest.event, Lost(s, envs(tick)) + rest.lost, rest.tick)
    else Settled(r.next, r.event, Lost(s, envs(tick)), tick + 1)
  }

  function Kept(next: Option<State>): seq<State> {
    if next.Some? then [next.value] else []
  }

  /** `Vec::swap_remove`: the last element takes the place of the one removed. */
  function SwapRemove(subs: seq<State>, n: nat): (rest: seq<State>)
    requires n < |subs|
    ensures |rest| == |subs| - 1 && rest[..n] == subs[..n]
    ensures multiset(rest[n..]) == multiset(subs[n + 1..])
  {
    var last := |subs| - 1;
    if n == last then subs[..last]
    else
      assert subs[n + 1..] == subs[n + 1..last] + [subs[last]];
      assert subs[..last][n := subs[last]][n..] == [subs[last]] + subs[n + 1..last];
      subs[..last][n := subs[last]]
  }

  datatype Polled = Polled(subs: seq<State>, event: Option<HandlerEvent>, lost: seq<UserData>, tick: nat)

  /** The outer loop of `poll`, with the places below `n` still to do. */
  function PollDown(subs: seq<State>, n: nat, envs: nat -> Env, tick: nat): Polled
    requires n <= |subs|
    decreases n
  {
    if n == 0 then Polled(subs, None, [], tick)
    else
      var r := Settle(subs[n - 1], envs, tick);
      var subs' := SwapRemove(subs, n - 1) + Kept(r.next);
      if r.event.Some? then Polled(subs', r.event, r.lost, r.tick)
      else
        var rest := PollDown(subs', n - 1, envs, r.tick);
        Polled(rest.subs, rest.event, r.lost + rest.lost, rest.tick)
  }

  /** A poll without swapping: from the last substream to the first, until one says something. */
  datatype Swept = Swept(
    untouched: seq<State>, advanced: seq<State>, event: Option<HandlerEvent>, lost: seq<UserData>, tick: nat)

  ghost function Sweep(subs: seq<State>, envs: nat -> Env, tick: nat): Swept {
    if subs == [] then Swept([], [], None, [], tick)
    else
      var front := subs[..|subs| - 1];
      var r := Settle(subs[|subs| - 1], envs, tick);
      if r.event.Some? then Swept(front, Kept(r.next), r.event, r.lost, r.tick)
      else
        var rest := Sweep(front, envs, r.tick);
        Swept(rest.untouched, Kept(r.next) + rest.advanced, rest.event, r.lost + rest.lost, rest.tick)
  }

  lemma {:induction false} PollDownSweeps(subs: seq<State>, n: nat, envs: nat -> Env, tick: nat)
    requires n <= |subs|
    ensures var p := PollDown(subs, n, envs, tick);
            var s := Sweep(subs[..n], envs, tick);
            && p.event == s.event && p.lost == s.lost && p.tick == s.tick
            && multiset(p.subs) == multiset(s.untouched) + multiset(s.advanced) + multiset(subs[n..])
    decreases n
  {
    hide Settle;
    hide SwapRemove;
    hide Kept;
    if n == 0 {
      assert subs[0..] == subs;
    } else {
      var r := Settle(subs[n - 1], envs, tick);
      var subs' := SwapRemove(subs, n - 1) + Kept(r.next);
      assert subs[..n][..n - 1] == subs[..n - 1];
      AfterSwap(subs, n, Kept(r.next));
      if r.event.None? {
        PollDownSweeps(subs', n - 1, envs, r.tick);
        var rest := Sweep(subs[..n - 1], envs, r.tick);
        assert multiset(Kept(r.next) + rest.advanced) == multiset(Kept(r.next)) + multiset(rest.advanced);
      }
    }
  }

  /** What is left at the place of a removed substream and after it. */
  lemma AfterSwap(subs: seq<State>, n: nat, kept: seq<State>)
    requires 0 < n <= |subs|
    ensures var subs' := SwapRemove(subs, n - 1) + kept;
            && |subs'| >= n - 1 && subs'[..n - 1] == subs[..n - 1]
            && multiset(subs'[n - 1..]) == multiset(subs[n..]) + multiset(kept)
            && multiset(subs') == multiset(subs[..n - 1]) + multiset(kept) + multiset(subs[n..])
  {
    var rest := SwapRemove(subs, n - 1);
    var subs' := rest + kept;
    assert subs'[..n - 1] == rest[..n - 1];
    assert subs'[n - 1..] == rest[n - 1..] + kept;
    assert subs' == subs'[..n - 1] + subs'[n - 1..];
  }

  /**
   Despite the swapping, a poll treats each substream at most once: those it leaves alone are a
   prefix of the list, and with nothing to say it leaves none.
   */
  lemma PollSweeps(subs: seq<State>, envs: nat -> Env, tick: nat)
    ensures var p := PollDown(subs, |subs|, envs, tick);
            var s := Sweep(subs, envs, tick);
            && p.event == s.event && p.lost == s.lost && p.tick == s.tick
            && multiset(p.subs) == multiset(s.untouched) + multiset(s.advanced)
            && |s.untouched| <= |subs| && s.untouched == subs[..|s.untouched|]
            && (p.event.None? ==> s.untouched == [])
            && (p.event.Some? ==> |s.untouched| < |subs|)
  {
    PollDownSweeps(subs, |subs|, envs, tick);
    assert subs[..|subs|] == subs && subs[|subs|..] == [];
    SweepPrefix(subs, envs, tick);
  }

  lemma {:induction false} SweepPrefix(subs: seq<State>, envs: nat -> Env, tick: nat)
    ensures var s := Sweep(subs, envs, tick);
            && |s.untouched| <= |subs| && s.untouched == subs[..|s.untouched|]
            && (s.event.None? ==> s.untouched == [])
            && (s.event.Some? ==> |s.untouched| < |subs|)
  {
    hide Settle;
    if subs != [] {
      var r := Settle(subs[|subs| - 1], envs, tick);
      SweepPrefix(subs[..|subs| - 1], envs, r.tick);
    }
  }
}

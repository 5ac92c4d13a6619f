/**
 The handler of one connection as an object, and runs of it: what becomes of each query, and how
 requests of the peer and answers to them follow each other.
 */
module Handler {
  import opened Base
  import opened Substreams

  /** Events of the behaviour for the handler: requests of ours, answers to requests of the peer. */
  datatype EventIn =
    | NodeTypeRequest(nodeType: NodeType, userData: UserData)
    | NodeTypeAnswer(nodeType: NodeType, requestId: nat)
    | NotMine(requestId: nat)
    | Ack(requestId: nat)
    | ManagerRequest(specs: Specs, userData: UserData)
    | ManagerAnswer(accepted: bool, requestId: nat)
    | ManagerBye(userData: UserData)
    | ManagerPing(userData: UserData)
    | ManagerPong(requestId: nat)
    | TasksExecute(tasks: seq<Bytes>, userData: UserData)
    | TasksPing(taskIds: seq<Id>, userData: UserData)
    | TasksPong(statuses: seq<(Id, Bytes)>, requestId: nat)
    | TasksAbord(taskIds: seq<Id>, userData: UserData)
    | TaskStatus(taskId: Id, status: Bytes, userData: UserData)
  {
    predicate IsAnswer() {
      NodeTypeAnswer? || NotMine? || Ack? || ManagerAnswer? || ManagerPong? || TasksPong?
    }
  }

  function CodeOf(t: NodeType): int {
    if t.Manager? then 0 else 1
  }

  function Known(ids: seq<Id>): seq<Option<Id>> {
    seq(|ids|, i requires 0 <= i < |ids| => Some(ids[i]))
  }

  function KnownStatuses(statuses: seq<(Id, Bytes)>): seq<(Option<Id>, Bytes)> {
    seq(|statuses|, i requires 0 <= i < |statuses| => (Some(statuses[i].0), statuses[i].1))
  }

  /** The message that carries an event to the peer. */
  function MessageOf(e: EventIn): Message {
    match e
    case NodeTypeRequest(t, _) => Message.NodeTypeRequest(CodeOf(t))
    case NodeTypeAnswer(t, _) => Message.NodeTypeAnswer(CodeOf(t))
    case NotMine(_) => Message.NotMine
    case Ack(_) => Message.Ack
    case ManagerRequest(specs, _) => Message.ManagerRequest(specs)
    case ManagerAnswer(accepted, _) => Message.ManagerAnswer(accepted)
    case ManagerBye(_) => Message.ManagerBye
    case ManagerPing(_) => Message.ManagerPing
    case ManagerPong(_) => Message.ManagerPong
    case TasksExecute(tasks, _) => Message.TasksExecute(tasks)
    case TasksPing(ids, _) => Message.TasksPing(Known(ids))
    case TasksPong(statuses, _) => Message.TasksPong(KnownStatuses(statuses))
    case TasksAbord(ids, _) => Message.TasksAbord(Known(ids))
    case TaskStatus(id, status, _) => Message.TaskStatus(Some(id), status)
  }

  /** The event a request of ours becomes at the peer, and the one an answer of the peer becomes here. */
  ghost function AtPeer(e: EventIn, id: nat): EventOut
    requires !e.IsAnswer()
  {
    match e
    case NodeTypeRequest(t, _) => EventOut.NodeTypeRequest(t, id)
    case ManagerRequest(specs, _) => EventOut.ManagerRequest(specs, id)
    case ManagerBye(_) => EventOut.ManagerBye(id)
    case ManagerPing(_) => EventOut.ManagerPing(id)
    case TasksExecute(tasks, _) => EventOut.TasksExecute(tasks, id)
    case TasksPing(ids, _) => EventOut.TasksPing(ids, id)
    case TasksAbord(ids, _) => EventOut.TasksAbord(ids, id)
    case TaskStatus(taskId, status, _) => EventOut.TaskStatus(taskId, status, id)
  }

  ghost function AnswerAtPeer(e: EventIn, user: UserData): Option<EventOut>
    requires e.IsAnswer()
  {
    match e
    case NodeTypeAnswer(t, _) => Some(EventOut.NodeTypeAnswer(t, user))
    case NotMine(_) => Some(EventOut.NotMine(user))
    case Ack(_) => None
    case ManagerAnswer(accepted, _) => Some(EventOut.ManagerAnswer(accepted, user))
    case ManagerPong(_) => Some(EventOut.ManagerPong(user))
    case TasksPong(statuses, _) => Some(EventOut.TasksPong(statuses, user))
  }

  lemma {:induction false} ParsedKnown(ids: seq<Id>)
    ensures Parsed(Known(ids)) == ids
  {
    if ids != [] {
      ParsedKnown(ids[..|ids| - 1]);
      assert Known(ids)[..|ids| - 1] == Known(ids[..|ids| - 1]);
    }
  }

  lemma {:induction false} ParsedKnownStatuses(statuses: seq<(Id, Bytes)>)
    ensures ParsedStatuses(KnownStatuses(statuses)) == statuses
  {
    if statuses != [] {
      ParsedKnownStatuses(statuses[..|statuses| - 1]);
      assert KnownStatuses(statuses)[..|statuses| - 1] == KnownStatuses(statuses[..|statuses| - 1]);
    }
  }

  /** A request arrives as the same request, an answer as the same answer; only `Ack` arrives as nothing. */
  lemma EventsArrive(e: EventIn, id: nat, user: UserData)
    ensures !e.IsAnswer() ==>
              ProcessRequest(MessageOf(e), id) == Some(AtPeer(e, id)) && ProcessAnswer(MessageOf(e), user) == None
    ensures e.IsAnswer() ==>
              ProcessAnswer(MessageOf(e), user) == AnswerAtPeer(e, user) && ProcessRequest(MessageOf(e), id) == None
  {
    match e
    case TasksPing(ids, _) => ParsedKnown(ids);
    case TasksAbord(ids, _) => ParsedKnown(ids);
    case TasksPong(statuses, _) => ParsedKnownStatuses(statuses);
    case _ =>
  }

  // ---------------------------------------------------------------- operations as functions

  predicate Waits(s: State, id: nat) {
    s.InWaitingUser? && s.id == id
  }

  /** Index of the first substream waiting for the answer to request `id`. */
  function FindWaiting(subs: seq<State>, id: nat): (i: nat)
    ensures i <= |subs|
    ensures i < |subs| ==> Waits(subs[i], id)
    ensures forall k | 0 <= k < i :: !Waits(subs[k], id)
  {
    if subs == [] then 0
    else if Waits(subs[0], id) then 0
    else
      assert forall k | 0 < k < |subs| :: subs[k] == subs[1..][k - 1];
      1 + FindWaiting(subs[1..], id)
  }

  /** `inject_event`. */
  function Injected(subs: seq<State>, e: EventIn): seq<State> {
    if e.IsAnswer() then
      var i := FindWaiting(subs, e.requestId);
      if i < |subs| then subs[..i] + subs[i + 1..] + [InPendingSend(e.requestId, subs[i].sink, MessageOf(e))] else subs
    else subs + [OutPendingOpen(MessageOf(e), Some(e.userData))]
  }

  /** `inject_dial_upgrade_error`. */
  function DialFailed(subs: seq<State>, user: Option<UserData>): seq<State> {
    if user.Some? then subs + [OutReportError(Upgrade, user.value)] else subs
  }

  /** Seconds a connection is kept once it has nothing left to do. */
  const KEEP_ALIVE: nat := 10

  class Balthandler {
    var substreams: seq<State>
    var nextId: nat
    var keepAlive: int

    constructor (now: int)
      ensures substreams == [] && nextId == 0 && keepAlive == now + KEEP_ALIVE
    {
      substreams, nextId, keepAlive := [], 0, now + KEEP_ALIVE;
    }

    method InjectInbound(sink: Sink)
      modifies this`substreams, this`nextId
      ensures substreams == old(substreams) + [InWaitingMessage(old(nextId), sink)] && nextId == old(nextId) + 1
    {
      substreams := substreams + [InWaitingMessage(nextId, sink)];
      nextId := nextId + 1;
    }

    method InjectOutbound(sink: Sink, msg: Message, user: Option<UserData>)
      modifies this`substreams
      ensures substreams == old(substreams) + [OutPendingSend(sink, msg, user)]
    {
      substreams := substreams + [OutPendingSend(sink, msg, user)];
    }

    method InjectEvent(e: EventIn)
      modifies this`substreams
      ensures substreams == Injected(old(substreams), e)
    {
      if !e.IsAnswer() {
        substreams := substreams + [OutPendingOpen(MessageOf(e), Some(e.userData))];
        return;
      }
      hide FindWaiting;
      var pos := 0;
      while pos < |substreams| && !Waits(substreams[pos], e.requestId)
        invariant 0 <= pos <= |substreams| && substreams == old(substreams)
        invariant forall k | 0 <= k < pos :: !Waits(substreams[k], e.requestId)
      {
        pos := pos + 1;
      }
      assert pos == FindWaiting(substreams, e.requestId);
      if pos < |substreams| {
        var waiting := substreams[pos];
        substreams := substreams[..pos] + substreams[pos + 1..];
        substreams := substreams + [InPendingSend(waiting.id, waiting.sink, MessageOf(e))];
      }
    }

    method InjectDialUpgradeError(user: Option<UserData>)
      modifies this`substreams
      ensures substreams == DialFailed(old(substreams), user)
    {
      if user.Some? {
        substreams := substreams + [OutReportError(Upgrade, user.value)];
      }
    }

    /** `None` is `Poll::Pending`. The connection is kept anew when the last substream ends with an event. */
    method Poll(envs: nat -> Env, tick: nat, now: int) returns (event: Option<HandlerEvent>, end: nat)
      modifies this`substreams, this`keepAlive
      ensures keepAlive == if event.Some? && substreams == [] then now + KEEP_ALIVE else old(keepAlive)
      ensures var p := PollDown(old(substreams), |old(substreams)|, envs, tick);
              substreams == p.subs && event == p.event && end == p.tick
    {
      hide Advance;
      event, end := None, tick;
      ghost var goal := PollDown(substreams, |substreams|, envs, tick);
      var n := |substreams|;
      while n > 0
        invariant 0 <= n <= |substreams| && keepAlive == old(keepAlive)
        invariant var rest := PollDown(substreams, n, envs, end);
                  rest.subs == goal.subs && rest.event == goal.event && rest.tick == goal.tick
      {
        n := n - 1;
        var substream := substreams[n];
        ghost var whole := Settle(substream, envs, end);
        substreams := SwapRemove(substreams, n);
        ghost var before := substreams;
        var again := true;
        while again
          invariant again ==>
              substreams == before &&
              var rest := Settle(substream, envs, end);
              rest.next == whole.next && rest.event == whole.event && rest.tick == whole.tick
          invariant !again ==> end == whole.tick && whole.event.None? && substreams == before + Kept(whole.next)
          invariant keepAlive == old(keepAlive)
          decreases again, Rank(substream)
        {
          AgainLowersRank(substream, envs(end));
          var r := Advance(substream, envs(end));
          end := end + 1;
          if r.event.Some? {
            substreams := substreams + Kept(r.next);
            if r.next.None? && substreams == [] { keepAlive := now + KEEP_ALIVE; }
            return r.event, end;
          }
          if r.next.Some? && r.again {
            substream := r.next.value;
          } else {
            substreams := substreams + Kept(r.next);
            again := false;
          }
        }
      }
    }
  }
}

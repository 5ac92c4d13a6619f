/** What a handler writes on its streams over a run, and what the handler at the other end makes of it. */
module HandlerMessages {
  import opened Base
  import opened Substreams
  import opened Handler
  import opened HandlerRuns

  /** A message written on a stream: a query of ours, or the answer to a request of the peer. */
  datatype Letter = Query(user: Option<UserData>, msg: Message) | Reply(id: nat, msg: Message)

  // ---------------------------------------------------------------- what is written

  function Written(s: State, env: Env): seq<Letter> {
    if !env.ready.Ready? || !env.accepted then []
    else match s
      case OutPendingSend(_, msg, user) => [Query(user, msg)]
      case InPendingSend(id, _, msg) => [Reply(id, msg)]
      case _ => []
  }

  function SettleWritten(s: State, envs: nat -> Env, tick: nat): seq<Letter>
    decreases Rank(s)
  {
    var r := Advance(s, envs(tick));
    Written(s, envs(tick))
    + if r.next.Some? && r.event.None? && r.again then
        AgainLowersRank(s, envs(tick));
        SettleWritten(r.next.value, envs, tick + 1)
      else []
  }

  /** A poll goes through the substreams from the last to the first, until one says something. */
  function PollWritten(subs: seq<State>, envs: nat -> Env, tick: nat): seq<Letter> {
    if subs == [] then []
    else
      var last := subs[|subs| - 1];
      var r := Settle(last, envs, tick);
      SettleWritten(last, envs, tick) + if r.event.Some? then [] else PollWritten(subs[..|subs| - 1], envs, r.tick)
  }

  function Wire(steps: seq<ConnStep>): seq<Letter> {
    if steps == [] then []
    else
      var n := |steps| - 1;
      Wire(steps[..n])
      + if steps[n].Poll? then PollWritten(AfterRun(steps[..n]).subs, steps[n].envs, 0) else []
  }

  // ---------------------------------------------------------------- what was injected

  /** Some request with this user data was injected, and this is its message. */
  ghost predicate Asked(steps: seq<ConnStep>, user: Option<UserData>, msg: Message) {
    exists k :: 0 <= k < |steps| && AsksAt(steps[k], user, msg)
  }

  predicate AsksAt(step: ConnStep, user: Option<UserData>, msg: Message) {
    step.Inject? && !step.e.IsAnswer() && user == Some(step.e.userData) && msg == MessageOf(step.e)
  }

  /** The answer to request `id` that was taken last; an answer nobody waits for is not taken. */
  function LastAnswer(steps: seq<ConnStep>, id: nat): Option<EventIn> {
    if steps == [] then None
    else
      var n := |steps| - 1;
      if Answers(AfterRun(steps).exchanges, id) > Answers(AfterRun(steps[..n]).exchanges, id) && steps[n].Inject?
      then Some(steps[n].e) else LastAnswer(steps[..n], id)
  }

  /** A substream bears the message of the request with its user data, or of the last answer for its number. */
  ghost predicate Bears(steps: seq<ConnStep>, s: State) {
    match s
    case OutPendingOpen(msg, user) => Asked(steps, user, msg)
    case OutPendingSend(_, msg, user) => Asked(steps, user, msg)
    case InPendingSend(id, _, msg) => AnswerIs(LastAnswer(steps, id), id, msg)
    case _ => true
  }

  predicate AnswerIs(e: Option<EventIn>, id: nat, msg: Message) {
    e.Some? && e.value.IsAnswer() && e.value.requestId == id && msg == MessageOf(e.value)
  }

  ghost predicate AllBear(steps: seq<ConnStep>, subs: seq<State>) {
    forall i | 0 <= i < |subs| :: Bears(steps, subs[i])
  }

  ghost predicate Faithful(steps: seq<ConnStep>, c: Conn) {
    && AllBear(steps, c.subs)
    && forall i | 0 <= i < |c.opening| :: Asked(steps, c.opening[i].1, c.opening[i].0)
  }

  // ---------------------------------------------------------------- a poll

  lemma AdvanceBears(steps: seq<ConnStep>, s: State, env: Env)
    requires Bears(steps, s)
    ensures var r := Advance(s, env);
            && AllBear(steps, Kept(r.next))
            && (r.event.Some? && r.event.value.Open? ==> Asked(steps, r.event.value.user, r.event.value.msg))
  {
    hide Asked;
    hide LastAnswer;
    hide AnswerIs;
    hide Parsed;
    hide ParsedStatuses;
  }

  lemma {:induction false} SettleBears(steps: seq<ConnStep>, s: State, envs: nat -> Env, tick: nat)
    requires Bears(steps, s)
    ensures var r := Settle(s, envs, tick);
            && AllBear(steps, Kept(r.next))
            && (r.event.Some? && r.event.value.Open? ==> Asked(steps, r.event.value.user, r.event.value.msg))
    decreases Rank(s)
  {
    hide Bears;
    hide Advance;
    hide Lost;
    hide Asked;
    AdvanceBears(steps, s, envs(tick));
    var r := Advance(s, envs(tick));
    if r.next.Some? && r.event.None? && r.again {
      AgainLowersRank(s, envs(tick));
      assert Kept(r.next)[0] == r.next.value;
      SettleBears(steps, r.next.value, envs, tick + 1);
    }
  }

  lemma {:induction false} SweepBears(steps: seq<ConnStep>, subs: seq<State>, envs: nat -> Env, tick: nat)
    requires AllBear(steps, subs)
    ensures var r := Sweep(subs, envs, tick);
            && AllBear(steps, r.untouched) && AllBear(steps, r.advanced)
            && (r.event.Some? && r.event.value.Open? ==> Asked(steps, r.event.value.user, r.event.value.msg))
  {
    hide Bears;
    hide Settle;
    hide Asked;
    if subs != [] {
      var n := |subs| - 1;
      SettleBears(steps, subs[n], envs, tick);
      SweepBears(steps, subs[..n], envs, Settle(subs[n], envs, tick).tick);
    }
  }

  lemma PollBears(steps: seq<ConnStep>, subs: seq<State>, envs: nat -> Env)
    requires AllBear(steps, subs)
    ensures var r := PollDown(subs, |subs|, envs, 0);
            && AllBear(steps, r.subs)
            && (r.event.Some? && r.event.value.Open? ==> Asked(steps, r.event.value.user, r.event.value.msg))
  {
    hide Bears;
    hide Asked;
    hide PollDown;
    hide Sweep;
    PollSweeps(subs, envs, 0);
    SweepBears(steps, subs, envs, 0);
    var r, s := PollDown(subs, |subs|, envs, 0), Sweep(subs, envs, 0);
    forall i | 0 <= i < |r.subs| ensures Bears(steps, r.subs[i]) {
      assert r.subs[i] in multiset(r.subs);
      assert r.subs[i] in s.untouched || r.subs[i] in s.advanced;
    }
  }

  // ---------------------------------------------------------------- a step

  /** One more step keeps what was asked, and answers to other requests. */
  lemma BearsMore(steps: seq<ConnStep>, step: ConnStep, s: State)
    requires Bears(steps, s)
    requires s.InPendingSend? ==> LastAnswer(steps + [step], s.id) == LastAnswer(steps, s.id)
    ensures Bears(steps + [step], s)
  {
    if s.OutPendingOpen? || s.OutPendingSend? { AskedMore(steps, step, s.user, s.msg); }
  }

  lemma AskedMore(steps: seq<ConnStep>, step: ConnStep, user: Option<UserData>, msg: Message)
    requires Asked(steps, user, msg)
    ensures Asked(steps + [step], user, msg)
  {
    var k :| 0 <= k < |steps| && AsksAt(steps[k], user, msg);
    assert (steps + [step])[k] == steps[k];
  }

  lemma AskedNow(steps: seq<ConnStep>, e: EventIn)
    requires !e.IsAnswer()
    ensures Asked(steps + [Inject(e)], Some(e.userData), MessageOf(e))
  {
    assert AsksAt((steps + [Inject(e)])[|steps|], Some(e.userData), MessageOf(e));
  }

  lemma {:induction false} TallyHas<T>(s: seq<T>, k: nat, weight: T -> nat)
    requires k < |s|
    ensures Tally(s, weight) >= weight(s[k])
  {
    if k < |s| - 1 { TallyHas(s[..|s| - 1], k, weight); }
  }

  /** While a request waits for its answer, no other answer to it is under way. */
  lemma AloneWaiting(subs: seq<State>, i: nat, id: nat)
    requires i < |subs| && Waits(subs[i], id) && Tally(subs, Numbered(id)) <= 1
    ensures forall k | 0 <= k < |Without(subs, i)| :: !(Without(subs, i)[k].InPendingSend? && Without(subs, i)[k].id == id)
  {
    TallyWithout(subs, i, Numbered(id));
    forall k | 0 <= k < |Without(subs, i)| ensures !(Without(subs, i)[k].InPendingSend? && Without(subs, i)[k].id == id) {
      TallyHas(Without(subs, i), k, Numbered(id));
    }
  }

  /** The answers taken, step by step. */
  lemma LastAnswerMore(steps: seq<ConnStep>, step: ConnStep, id: nat)
    ensures LastAnswer(steps + [step], id)
            == if step.Inject? && step.e.IsAnswer() && step.e.requestId == id
                  && FindWaiting(AfterRun(steps).subs, id) < |AfterRun(steps).subs|
               then Some(step.e) else LastAnswer(steps, id)
  {
    hide AfterPoll;
    hide Injected;
    hide FindWaiting;
    hide Answers;
    var more := steps + [step];
    assert more[..|steps|] == steps;
    var c := AfterRun(steps);
    assert AfterRun(more) == AfterStep(c, step);
    if step.Inject? && step.e.IsAnswer() { AnswersMore(c.exchanges, step.e.requestId, id); }
  }

  lemma AnswersMore(exchanges: seq<Exchange>, k: nat, id: nat)
    ensures Answers(exchanges + [Answered(k)], id) == Answers(exchanges, id) + One(k == id)
  {
    TallyOne(exchanges, Answered(k), x => One(x == Answered(id)));
  }

  lemma InjectBears(steps: seq<ConnStep>, e: EventIn)
    requires Faithful(steps, AfterRun(steps)) && forall id :: InboundOk(AfterRun(steps), id)
    ensures Faithful(steps + [Inject(e)], AfterStep(AfterRun(steps), Inject(e)))
  {
    hide Bears;
    hide MessageOf;
    hide LastAnswer;
    hide Asked;
    hide AfterRun;
    hide FindWaiting;
    hide Alternates;
    hide Deliveries;
    hide Answers;
    hide Tally;
    var c, more := AfterRun(steps), steps + [Inject(e)];
    forall i | 0 <= i < |c.opening| ensures Asked(more, c.opening[i].1, c.opening[i].0) {
      AskedMore(steps, Inject(e), c.opening[i].1, c.opening[i].0);
    }
    if !e.IsAnswer() {
      OldBear(steps, Inject(e), c.subs);
      NewQuery(steps, e);
    } else {
      LastAnswerMore(steps, Inject(e), e.requestId);
      var i := FindWaiting(c.subs, e.requestId);
      if i < |c.subs| {
        assert InboundOk(c, e.requestId);
        AloneWaiting(c.subs, i, e.requestId);
        OldBear(steps, Inject(e), Without(c.subs, i));
        NewReply(more, e, c.subs[i].sink);
      } else {
        OldBear(steps, Inject(e), c.subs);
      }
    }
  }

  lemma NewQuery(steps: seq<ConnStep>, e: EventIn)
    requires !e.IsAnswer()
    ensures Bears(steps + [Inject(e)], OutPendingOpen(MessageOf(e), Some(e.userData)))
  {
    AskedNow(steps, e);
  }

  lemma NewReply(steps: seq<ConnStep>, e: EventIn, sink: Sink)
    requires e.IsAnswer() && LastAnswer(steps, e.requestId) == Some(e)
    ensures Bears(steps, InPendingSend(e.requestId, sink, MessageOf(e)))
  {
  }

  /** Substreams without an answer to the request just answered are as faithful as before. */
  lemma OldBear(steps: seq<ConnStep>, step: ConnStep, subs: seq<State>)
    requires AllBear(steps, subs)
    requires step.Inject? && step.e.IsAnswer()
             && FindWaiting(AfterRun(steps).subs, step.e.requestId) < |AfterRun(steps).subs| ==>
               forall k | 0 <= k < |subs| :: !(subs[k].InPendingSend? && subs[k].id == step.e.requestId)
    ensures AllBear(steps + [step], subs)
  {
    hide Bears;
    hide LastAnswer;
    hide AfterRun;
    hide FindWaiting;
    forall k | 0 <= k < |subs| ensures Bears(steps + [step], subs[k]) {
      if subs[k].InPendingSend? { LastAnswerMore(steps, step, subs[k].id); }
      BearsMore(steps, step, subs[k]);
    }
  }

  lemma PollStepBears(steps: seq<ConnStep>, envs: nat -> Env)
    requires Faithful(steps, AfterRun(steps))
    ensures Faithful(steps + [Poll(envs)], AfterStep(AfterRun(steps), Poll(envs)))
  {
    hide Bears;
    hide Asked;
    hide AfterRun;
    hide PollDown;
    var c := AfterRun(steps);
    PollBears(steps, c.subs, envs);
    var p := PollDown(c.subs, |c.subs|, envs, 0);
    OldBear(steps, Poll(envs), p.subs);
    var c' := AfterStep(c, Poll(envs));
    forall i | 0 <= i < |c'.opening| ensures Asked(steps + [Poll(envs)], c'.opening[i].1, c'.opening[i].0) {
      AskedMore(steps, Poll(envs), c'.opening[i].1, c'.opening[i].0);
    }
  }

  lemma PlainBears(steps: seq<ConnStep>, step: ConnStep)
    requires Faithful(steps, AfterRun(steps)) && !step.Inject? && !step.Poll?
    ensures Faithful(steps + [step], AfterStep(AfterRun(steps), step))
  {
    hide Asked;
    hide AfterRun;
    hide LastAnswer;
    hide AfterPoll;
    var c, c' := AfterRun(steps), AfterStep(AfterRun(steps), step);
    forall i | 0 <= i < |c'.subs| ensures Bears(steps, c'.subs[i]) {
      if i < |c.subs| { assert c'.subs[i] == c.subs[i]; }
    }
    OldBear(steps, step, c'.subs);
    forall i | 0 <= i < |c'.opening| ensures Asked(steps + [step], c'.opening[i].1, c'.opening[i].0) {
      AskedMore(steps, step, c'.opening[i].1, c'.opening[i].0);
    }
  }

  /** Over every run, whatever a substream or an opening bears is the message that was injected for it. */
  lemma {:induction false} RunBears(steps: seq<ConnStep>)
    ensures Faithful(steps, AfterRun(steps))
  {
    hide Faithful;
    hide AfterStep;
    hide InboundOk;
    if steps == [] {
      NothingBorn();
    } else {
      var n := |steps| - 1;
      RunBears(steps[..n]);
      assert steps == steps[..n] + [steps[n]];
      match steps[n]
      case Inject(e) =>
        forall id ensures InboundOk(AfterRun(steps[..n]), id) { RunOk(steps[..n], 0, id); }
        InjectBears(steps[..n], e);
      case Poll(envs) => PollStepBears(steps[..n], envs);
      case _ => PlainBears(steps[..n], steps[n]);
    }
  }

  lemma NothingBorn()
    ensures Faithful([], AfterRun([]))
  {
  }

  // ---------------------------------------------------------------- the wire

  /** A letter is what was injected for it. */
  ghost predicate Sincere(steps: seq<ConnStep>, l: Letter) {
    match l
    case Query(user, msg) => Asked(steps, user, msg)
    case Reply(id, msg) => AnswerIs(LastAnswer(steps, id), id, msg)
  }

  lemma {:induction false} SettleSincere(steps: seq<ConnStep>, s: State, envs: nat -> Env, tick: nat)
    requires Bears(steps, s)
    ensures forall l | l in SettleWritten(s, envs, tick) :: Sincere(steps, l)
    decreases Rank(s)
  {
    hide Advance;
    hide Asked;
    hide LastAnswer;
    hide AnswerIs;
    AdvanceBears(steps, s, envs(tick));
    var r := Advance(s, envs(tick));
    if r.next.Some? && r.event.None? && r.again {
      AgainLowersRank(s, envs(tick));
      assert Kept(r.next)[0] == r.next.value;
      SettleSincere(steps, r.next.value, envs, tick + 1);
    }
  }

  lemma {:induction false} PollSincere(steps: seq<ConnStep>, subs: seq<State>, envs: nat -> Env, tick: nat)
    requires AllBear(steps, subs)
    ensures forall l | l in PollWritten(subs, envs, tick) :: Sincere(steps, l)
  {
    hide Bears;
    hide Settle;
    hide Sincere;
    if subs != [] {
      var n := |subs| - 1;
      SettleSincere(steps, subs[n], envs, tick);
      PollSincere(steps, subs[..n], envs, Settle(subs[n], envs, tick).tick);
    }
  }

  /** Over every run, each query written was injected with its user data, and each reply for its number, earlier in the run. */
  lemma {:induction false} RunSincere(steps: seq<ConnStep>, i: nat)
    requires i < |Wire(steps)|
    ensures exists n :: 0 <= n <= |steps| && Sincere(steps[..n], Wire(steps)[i])
  {
    hide Bears;
    hide Sincere;
    hide AfterRun;
    var n := |steps| - 1;
    if i < |Wire(steps[..n])| {
      RunSincere(steps[..n], i);
      var m :| 0 <= m <= n && Sincere(steps[..n][..m], Wire(steps[..n])[i]);
      assert steps[..n][..m] == steps[..m];
    } else {
      RunBears(steps[..n]);
      PollSincere(steps[..n], AfterRun(steps[..n]).subs, steps[n].envs, 0);
      var written := PollWritten(AfterRun(steps[..n]).subs, steps[n].envs, 0);
      assert Wire(steps)[i] in written;
    }
  }

  // ---------------------------------------------------------------- the other end

  /** A query on the wire becomes, at a peer that reads it as request `id`, the very event injected here. */
  lemma QueryArrives(steps: seq<ConnStep>, i: nat, sink: Sink, id: nat, envs: nat -> Env, tick: nat) returns (e: EventIn)
    requires i < |Wire(steps)| && Wire(steps)[i].Query? && envs(tick).next == Received(Wire(steps)[i].msg)
    ensures !e.IsAnswer() && Inject(e) in steps && Wire(steps)[i].user == Some(e.userData)
    ensures Settle(InWaitingMessage(id, sink), envs, tick).event == Some(Custom(AtPeer(e, id)))
  {
    hide Wire;
    hide MessageOf;
    hide ProcessRequest;
    hide ProcessAnswer;
    RunSincere(steps, i);
    var l := Wire(steps)[i];
    var n :| 0 <= n <= |steps| && Sincere(steps[..n], l);
    var k :| 0 <= k < n && AsksAt(steps[..n][k], l.user, l.msg);
    assert steps[..n][k] == steps[k];
    e := steps[k].e;
    EventsArrive(e, id, 0);
  }

  /** A reply on the wire becomes, at the peer that waits for it with `user`, the answer taken here; `Ack` ends the query silently. */
  lemma ReplyArrives(steps: seq<ConnStep>, i: nat, sink: Sink, user: UserData, envs: nat -> Env, tick: nat) returns (e: EventIn)
    requires i < |Wire(steps)| && Wire(steps)[i].Reply? && envs(tick).next == Received(Wire(steps)[i].msg)
    ensures e.IsAnswer() && Inject(e) in steps && e.requestId == Wire(steps)[i].id
    ensures var r := Settle(OutWaitingAnswer(sink, user), envs, tick);
            && r.event == (if AnswerAtPeer(e, user).Some? then Some(Custom(AnswerAtPeer(e, user).value)) else None)
            && (r.lost == [user] <==> e.Ack?)
  {
    hide Wire;
    hide MessageOf;
    hide ProcessRequest;
    hide ProcessAnswer;
    hide LastAnswer;
    RunSincere(steps, i);
    var l := Wire(steps)[i];
    var n :| 0 <= n <= |steps| && Sincere(steps[..n], l);
    e := LastAnswer(steps[..n], l.id).value;
    LastAnswerIn(steps[..n], l.id);
    EventsArrive(e, 0, user);
  }

  lemma {:induction false} LastAnswerIn(steps: seq<ConnStep>, id: nat)
    ensures LastAnswer(steps, id).Some? ==> Inject(LastAnswer(steps, id).value) in steps
  {
    hide AfterRun;
    if steps != [] { LastAnswerIn(steps[..|steps| - 1], id); }
  }
}

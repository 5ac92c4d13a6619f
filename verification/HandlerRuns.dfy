/** Runs of one handler: where every query is, and how requests and answers of the peer alternate. */
module HandlerRuns {
  import opened Base
  import opened Substreams
  import opened Handler

  /** A request of the peer handed to the behaviour, or the behaviour's answer put on its way. */
  datatype Exchange = Delivered(id: nat) | Answered(id: nat)

  /**
   A handler with its surroundings: the substreams the library is opening for it, the queries the
   behaviour injected, the outcomes it was told, the queries that ended silently, and the exchanges
   on inbound substreams.
   */
  datatype Conn = Conn(
    subs: seq<State>,
    nextId: nat,
    opening: seq<(Message, Option<UserData>)>,
    injected: seq<UserData>,
    reported: seq<EventOut>,
    silent: seq<UserData>,
    exchanges: seq<Exchange>)

  const START := Conn([], 0, [], [], [], [], [])

  datatype ConnStep =
    | Inject(e: EventIn)
    | Inbound(sink: Sink)
    | Outbound(k: nat, sink: Sink)
    | DialError(k: nat)
    | Poll(envs: nat -> Env)

  function Without<T>(s: seq<T>, k: nat): seq<T>
    requires k < |s|
  {
    s[..k] + s[k + 1..]
  }

  function AfterEvent(c: Conn, event: HandlerEvent): Conn {
    match event
    case Open(msg, user) => c.(opening := c.opening + [(msg, user)])
    case Custom(e) =>
      if e.IsRequest() then c.(exchanges := c.exchanges + [Delivered(e.requestId)])
      else c.(reported := c.reported + [e])
  }

  function AfterPoll(c: Conn, envs: nat -> Env): Conn {
    var p := PollDown(c.subs, |c.subs|, envs, 0);
    var c' := c.(subs := p.subs, silent := c.silent + p.lost);
    if p.event.Some? then AfterEvent(c', p.event.value) else c'
  }

  function AfterStep(c: Conn, step: ConnStep): Conn {
    match step
    case Inject(e) =>
      var c' := c.(subs := Injected(c.subs, e));
      if !e.IsAnswer() then c'.(injected := c.injected + [e.userData])
      else if FindWaiting(c.subs, e.requestId) < |c.subs| then c'.(exchanges := c.exchanges + [Answered(e.requestId)])
      else c'
    case Inbound(sink) => c.(subs := c.subs + [InWaitingMessage(c.nextId, sink)], nextId := c.nextId + 1)
    case Outbound(k, sink) =>
      if k >= |c.opening| then c
      else c.(subs := c.subs + [OutPendingSend(sink, c.opening[k].0, c.opening[k].1)], opening := Without(c.opening, k))
    case DialError(k) =>
      if k >= |c.opening| then c
      else c.(subs := DialFailed(c.subs, c.opening[k].1), opening := Without(c.opening, k))
    case Poll(envs) => AfterPoll(c, envs)
  }

  function AfterRun(steps: seq<ConnStep>): Conn {
    if steps == [] then START else AfterStep(AfterRun(steps[..|steps| - 1]), steps[|steps| - 1])
  }

  // ---------------------------------------------------------------- counting

  function Tally<T>(s: seq<T>, weight: T -> nat): nat {
    if s == [] then 0 else Tally(s[..|s| - 1], weight) + weight(s[|s| - 1])
  }

  lemma {:induction false} TallyAppend<T>(a: seq<T>, b: seq<T>, weight: T -> nat)
    ensures Tally(a + b, weight) == Tally(a, weight) + Tally(b, weight)
  {
    if b == [] {
      assert a + b == a;
    } else {
      TallyAppend(a, b[..|b| - 1], weight);
      assert (a + b)[..|a + b| - 1] == a + b[..|b| - 1];
    }
  }

  lemma TallyOne<T>(a: seq<T>, x: T, weight: T -> nat)
    ensures Tally(a + [x], weight) == Tally(a, weight) + weight(x)
  {
    assert (a + [x])[..|a|] == a;
  }

  lemma TallyWithout<T>(s: seq<T>, k: nat, weight: T -> nat)
    requires k < |s|
    ensures Tally(Without(s, k), weight) == Tally(s, weight) - weight(s[k])
  {
    hide Tally;
    assert s == s[..k] + [s[k]] + s[k + 1..];
    TallyAppend(s[..k] + [s[k]], s[k + 1..], weight);
    TallyOne(s[..k], s[k], weight);
    TallyAppend(s[..k], s[k + 1..], weight);
  }

  lemma {:induction false} TallySame<T>(a: seq<T>, b: seq<T>, weight: T -> nat)
    requires multiset(a) == multiset(b)
    ensures Tally(a, weight) == Tally(b, weight)
    decreases |a|
  {
    assert |a| == |multiset(a)| == |multiset(b)| == |b|;
    if a != [] {
      var n := |a| - 1;
      var k := LastIn(a, b);
      TallySame(a[..n], Without(b, k), weight);
      hide Tally;
      TallyWithout(b, k, weight);
      TallyOne(a[..n], a[n], weight);
      assert a == a[..n] + [a[n]];
    }
  }

  /** The last element of a list has a place in each list of the same elements; without both, these remain the same. */
  lemma LastIn<T>(a: seq<T>, b: seq<T>) returns (k: nat)
    requires a != [] && multiset(a) == multiset(b)
    ensures k < |b| && b[k] == a[|a| - 1]
    ensures multiset(a[..|a| - 1]) == multiset(Without(b, k))
  {
    var n := |a| - 1;
    assert a == a[..n] + [a[n]];
    assert a[n] in multiset(b);
    k :| 0 <= k < |b| && b[k] == a[n];
    assert multiset(a[..n]) == multiset(a) - multiset{a[n]};
    LessOne(b, k);
  }

  lemma LessOne<T>(b: seq<T>, k: nat)
    requires k < |b|
    ensures multiset(Without(b, k)) == multiset(b) - multiset{b[k]}
  {
    assert b == b[..k] + [b[k]] + b[k + 1..];
  }

  // ---------------------------------------------------------------- what is counted

  function UserOf(s: State): Option<UserData> {
    match s
    case OutPendingOpen(_, user) => user
    case OutPendingSend(_, _, user) => user
    case OutPendingFlush(_, user) => user
    case OutWaitingAnswer(_, user) => Some(user)
    case OutReportError(_, user) => Some(user)
    case _ => None
  }

  function One(b: bool): nat {
    if b then 1 else 0
  }

  /** 1 for the substreams, opening substreams and outcomes that carry query `u`. */
  function Carries(u: UserData): State -> nat {
    (s: State) => One(UserOf(s) == Some(u))
  }

  function Opens(u: UserData): ((Message, Option<UserData>)) -> nat {
    (o: (Message, Option<UserData>)) => One(o.1 == Some(u))
  }

  function Tells(u: UserData): EventOut -> nat {
    (e: EventOut) => One(!e.IsRequest() && e.userData == u)
  }

  function Is(u: UserData): UserData -> nat {
    x => One(x == u)
  }

  /** 1 for the substreams on which request `id` waits for the behaviour. */
  function WaitsFor(id: nat): State -> nat {
    (s: State) => One(Waits(s, id))
  }

  /** 1 for the inbound substreams numbered `id`. */
  function Numbered(id: nat): State -> nat {
    (s: State) => One((s.InWaitingMessage? || s.InWaitingUser? || s.InPendingSend? || s.InPendingFlush?) && s.id == id)
  }

  function CarriedBy(event: Option<HandlerEvent>, u: UserData): nat {
    if event.None? then 0
    else match event.value
      case Open(_, user) => One(user == Some(u))
      case Custom(e) => Tells(u)(e)
  }

  function RequestIn(event: Option<HandlerEvent>, id: nat): nat {
    One(event.Some? && event.value.Custom? && event.value.event.IsRequest() && event.value.event.requestId == id)
  }

  // ---------------------------------------------------------------- one substream

  lemma AdvanceBalance(s: State, env: Env, u: UserData, id: nat)
    ensures var r := Advance(s, env);
            && Carries(u)(s) == Tally(Kept(r.next), Carries(u)) + CarriedBy(r.event, u) + Tally(Lost(s, env), Is(u))
            && Tally(Kept(r.next), WaitsFor(id)) == WaitsFor(id)(s) + RequestIn(r.event, id)
            && Tally(Kept(r.next), Numbered(id)) <= Numbered(id)(s)
  {
    hide Parsed;
    hide ParsedStatuses;
    var r := Advance(s, env);
    KeptTally(r.next, Carries(u));
    KeptTally(r.next, WaitsFor(id));
    KeptTally(r.next, Numbered(id));
    if Lost(s, env) != [] {
      assert Lost(s, env) == [] + [s.userData];
      TallyOne([], s.userData, Is(u));
    }
  }

  lemma KeptTally(next: Option<State>, weight: State -> nat)
    ensures Tally(Kept(next), weight) == if next.Some? then weight(next.value) else 0
  {
    if next.Some? { TallyOne([], next.value, weight); }
  }

  lemma {:induction false} SettleBalance(s: State, envs: nat -> Env, tick: nat, u: UserData, id: nat)
    ensures var r := Settle(s, envs, tick);
            && Carries(u)(s) == Tally(Kept(r.next), Carries(u)) + CarriedBy(r.event, u) + Tally(r.lost, Is(u))
            && Tally(Kept(r.next), WaitsFor(id)) == WaitsFor(id)(s) + RequestIn(r.event, id)
            && Tally(Kept(r.next), Numbered(id)) <= Numbered(id)(s)
    decreases Rank(s)
  {
    hide Advance;
    hide Lost;
    hide Carries;
    hide WaitsFor;
    hide Numbered;
    AdvanceBalance(s, envs(tick), u, id);
    var r := Advance(s, envs(tick));
    if r.next.Some? && r.event.None? && r.again {
      AgainLowersRank(s, envs(tick));
      SettleBalance(r.next.value, envs, tick + 1, u, id);
      TallyAppend(Lost(s, envs(tick)), Settle(r.next.value, envs, tick + 1).lost, Is(u));
      KeptTally(r.next, Carries(u));
      KeptTally(r.next, WaitsFor(id));
      KeptTally(r.next, Numbered(id));
    }
  }

  // ---------------------------------------------------------------- one poll

  lemma {:induction false} SweepBalance(subs: seq<State>, envs: nat -> Env, tick: nat, u: UserData, id: nat)
    ensures var r := Sweep(subs, envs, tick);
            var after := r.untouched + r.advanced;
            && Tally(subs, Carries(u)) == Tally(after, Carries(u)) + CarriedBy(r.event, u) + Tally(r.lost, Is(u))
            && Tally(after, WaitsFor(id)) == Tally(subs, WaitsFor(id)) + RequestIn(r.event, id)
            && Tally(after, Numbered(id)) <= Tally(subs, Numbered(id))
  {
    hide Settle;
    hide Kept;
    hide Carries;
    hide WaitsFor;
    hide Numbered;
    if subs != [] {
      var n := |subs| - 1;
      var one := Settle(subs[n], envs, tick);
      SettleBalance(subs[n], envs, tick, u, id);
      if one.event.Some? {
        Together(subs[..n], Kept(one.next), u, id);
      } else {
        SweepBalance(subs[..n], envs, one.tick, u, id);
        var rest := Sweep(subs[..n], envs, one.tick);
        Together(Kept(one.next), rest.advanced, u, id);
        Together(rest.untouched, rest.advanced, u, id);
        Together(rest.untouched, Kept(one.next) + rest.advanced, u, id);
        TallyAppend(one.lost, rest.lost, Is(u));
      }
    } else {
      assert Sweep(subs, envs, tick).untouched + Sweep(subs, envs, tick).advanced == [];
    }
  }

  lemma Together(a: seq<State>, b: seq<State>, u: UserData, id: nat)
    ensures Tally(a + b, Carries(u)) == Tally(a, Carries(u)) + Tally(b, Carries(u))
    ensures Tally(a + b, WaitsFor(id)) == Tally(a, WaitsFor(id)) + Tally(b, WaitsFor(id))
    ensures Tally(a + b, Numbered(id)) == Tally(a, Numbered(id)) + Tally(b, Numbered(id))
  {
    TallyAppend(a, b, Carries(u));
    TallyAppend(a, b, WaitsFor(id));
    TallyAppend(a, b, Numbered(id));
  }

  lemma PollBalance(subs: seq<State>, envs: nat -> Env, tick: nat, u: UserData, id: nat)
    ensures var r := PollDown(subs, |subs|, envs, tick);
            && Tally(subs, Carries(u)) == Tally(r.subs, Carries(u)) + CarriedBy(r.event, u) + Tally(r.lost, Is(u))
            && Tally(r.subs, WaitsFor(id)) == Tally(subs, WaitsFor(id)) + RequestIn(r.event, id)
            && Tally(r.subs, Numbered(id)) <= Tally(subs, Numbered(id))
  {
    hide PollDown;
    PollSweeps(subs, envs, tick);
    SweepBalance(subs, envs, tick, u, id);
    var r, s := PollDown(subs, |subs|, envs, tick), Sweep(subs, envs, tick);
    var after := s.untouched + s.advanced;
    assert multiset(r.subs) == multiset(after);
    TallySame(r.subs, after, Carries(u));
    TallySame(r.subs, after, WaitsFor(id));
    TallySame(r.subs, after, Numbered(id));
  }

  // ---------------------------------------------------------------- runs

  /** Every injected query is in exactly one place. */
  ghost predicate Accounted(c: Conn, u: UserData) {
    Tally(c.injected, Is(u))
    == Tally(c.subs, Carries(u)) + Tally(c.opening, Opens(u)) + Tally(c.reported, Tells(u)) + Tally(c.silent, Is(u))
  }

  function Deliveries(exchanges: seq<Exchange>, id: nat): nat {
    Tally(exchanges, e => One(e == Delivered(id)))
  }

  function Answers(exchanges: seq<Exchange>, id: nat): nat {
    Tally(exchanges, e => One(e == Answered(id)))
  }

  /** After every exchange, at most one delivered request is unanswered, and none is answered twice. */
  ghost predicate Alternates(exchanges: seq<Exchange>, id: nat) {
    forall n | 0 <= n <= |exchanges| ::
      Answers(exchanges[..n], id) <= Deliveries(exchanges[..n], id) <= Answers(exchanges[..n], id) + 1
  }

  ghost predicate InboundOk(c: Conn, id: nat) {
    && Tally(c.subs, Numbered(id)) <= (if id < c.nextId then 1 else 0)
    && Alternates(c.exchanges, id)
    && Deliveries(c.exchanges, id) == Answers(c.exchanges, id) + Tally(c.subs, WaitsFor(id))
  }

  lemma {:induction false} WaitingNumbered(subs: seq<State>, id: nat)
    ensures Tally(subs, WaitsFor(id)) <= Tally(subs, Numbered(id))
  {
    if subs != [] { WaitingNumbered(subs[..|subs| - 1], id); }
  }

  lemma {:induction false} NoneWaits(subs: seq<State>, id: nat)
    ensures FindWaiting(subs, id) == |subs| <==> Tally(subs, WaitsFor(id)) == 0
  {
    if subs != [] {
      var n := |subs| - 1;
      NoneWaits(subs[..n], id);
      assert forall k | 0 <= k < n :: subs[..n][k] == subs[k];
    }
  }

  lemma AlternatesMore(exchanges: seq<Exchange>, e: Exchange, id: nat)
    requires Alternates(exchanges, id)
    ensures Deliveries(exchanges + [e], id) == Deliveries(exchanges, id) + One(e == Delivered(id))
    ensures Answers(exchanges + [e], id) == Answers(exchanges, id) + One(e == Answered(id))
    ensures Alternates(exchanges + [e], id)
            <==> Answers(exchanges + [e], id) <= Deliveries(exchanges + [e], id) <= Answers(exchanges + [e], id) + 1
  {
    var more := exchanges + [e];
    TallyOne(exchanges, e, x => One(x == Delivered(id)));
    TallyOne(exchanges, e, x => One(x == Answered(id)));
    assert more[..|more|] == more;
    forall n | 0 <= n < |more| ensures more[..n] == exchanges[..n] {
    }
  }

  /** Where a query is after each step. */
  lemma StepAccounts(c: Conn, step: ConnStep, u: UserData)
    requires Accounted(c, u)
    ensures Accounted(AfterStep(c, step), u)
  {
    hide AfterPoll;
    hide Injected;
    hide DialFailed;
    hide Tally;
    match step
    case Inject(e) => InjectAccounts(c, e, u);
    case Inbound(sink) => TallyOne(c.subs, InWaitingMessage(c.nextId, sink), Carries(u));
    case Outbound(k, sink) =>
      if k < |c.opening| {
        TallyWithout(c.opening, k, Opens(u));
        TallyOne(c.subs, OutPendingSend(sink, c.opening[k].0, c.opening[k].1), Carries(u));
      }
    case DialError(k) =>
      if k < |c.opening| {
        TallyWithout(c.opening, k, Opens(u));
        DialTally(c.subs, c.opening[k].1, u);
      }
    case Poll(envs) => PollAccounts(c, envs, u);
  }

  lemma DialTally(subs: seq<State>, user: Option<UserData>, u: UserData)
    ensures Tally(DialFailed(subs, user), Carries(u)) == Tally(subs, Carries(u)) + One(user == Some(u))
  {
    if user.Some? { TallyOne(subs, OutReportError(Upgrade, user.value), Carries(u)); }
  }

  lemma InjectAccounts(c: Conn, e: EventIn, u: UserData)
    requires Accounted(c, u)
    ensures Accounted(AfterStep(c, Inject(e)), u)
  {
    hide MessageOf;
    hide Tally;
    if !e.IsAnswer() {
      TallyOne(c.subs, OutPendingOpen(MessageOf(e), Some(e.userData)), Carries(u));
      TallyOne(c.injected, e.userData, Is(u));
    } else {
      var i := FindWaiting(c.subs, e.requestId);
      if i < |c.subs| {
        TallyWithout(c.subs, i, Carries(u));
        TallyOne(Without(c.subs, i), InPendingSend(e.requestId, c.subs[i].sink, MessageOf(e)), Carries(u));
      }
    }
  }

  lemma PollAccounts(c: Conn, envs: nat -> Env, u: UserData)
    requires Accounted(c, u)
    ensures Accounted(AfterPoll(c, envs), u)
  {
    hide PollDown;
    PollBalance(c.subs, envs, 0, u, 0);
    var p := PollDown(c.subs, |c.subs|, envs, 0);
    TallyAppend(c.silent, p.lost, Is(u));
    if p.event.Some? {
      match p.event.value
      case Open(msg, user) => TallyOne(c.opening, (msg, user), Opens(u));
      case Custom(e) =>
        if !e.IsRequest() { TallyOne(c.reported, e, Tells(u)); }
    }
  }

  lemma StepInbound(c: Conn, step: ConnStep, id: nat)
    requires InboundOk(c, id)
    ensures InboundOk(AfterStep(c, step), id)
  {
    hide AfterPoll;
    hide Injected;
    hide Alternates;
    hide Deliveries;
    hide Answers;
    hide Tally;
    match step
    case Inject(e) => InjectInbound(c, e, id);
    case Inbound(sink) => GrowBy(c.subs, InWaitingMessage(c.nextId, sink), id);
    case Outbound(k, sink) =>
      if k < |c.opening| { GrowBy(c.subs, OutPendingSend(sink, c.opening[k].0, c.opening[k].1), id); }
    case DialError(k) =>
      if k < |c.opening| && c.opening[k].1.Some? { GrowBy(c.subs, OutReportError(Upgrade, c.opening[k].1.value), id); }
    case Poll(envs) => PollInbound(c, envs, id);
  }

  lemma GrowBy(subs: seq<State>, s: State, id: nat)
    ensures Tally(subs + [s], WaitsFor(id)) == Tally(subs, WaitsFor(id)) + WaitsFor(id)(s)
    ensures Tally(subs + [s], Numbered(id)) == Tally(subs, Numbered(id)) + Numbered(id)(s)
  {
    TallyOne(subs, s, WaitsFor(id));
    TallyOne(subs, s, Numbered(id));
  }

  lemma InjectInbound(c: Conn, e: EventIn, id: nat)
    requires InboundOk(c, id)
    ensures InboundOk(AfterStep(c, Inject(e)), id)
  {
    hide Alternates;
    hide Deliveries;
    hide Answers;
    hide Tally;
    hide MessageOf;
    if !e.IsAnswer() {
      GrowBy(c.subs, OutPendingOpen(MessageOf(e), Some(e.userData)), id);
      return;
    }
    var i := FindWaiting(c.subs, e.requestId);
    if i < |c.subs| {
      TallyWithout(c.subs, i, WaitsFor(id));
      TallyWithout(c.subs, i, Numbered(id));
      GrowBy(Without(c.subs, i), InPendingSend(e.requestId, c.subs[i].sink, MessageOf(e)), id);
      WaitingNumbered(c.subs, id);
      NoneWaits(c.subs, e.requestId);
      AlternatesMore(c.exchanges, Answered(e.requestId), id);
    }
  }

  lemma PollInbound(c: Conn, envs: nat -> Env, id: nat)
    requires InboundOk(c, id)
    ensures InboundOk(AfterPoll(c, envs), id)
  {
    hide PollDown;
    hide Alternates;
    hide Deliveries;
    hide Answers;
    PollBalance(c.subs, envs, 0, 0, id);
    var p := PollDown(c.subs, |c.subs|, envs, 0);
    WaitingNumbered(p.subs, id);
    if p.event.Some? && p.event.value.Custom? && p.event.value.event.IsRequest() {
      AlternatesMore(c.exchanges, Delivered(p.event.value.event.requestId), id);
    }
  }

  /**
   After any run, every query is in one place, the inbound substreams have distinct numbers, and on
   each of them deliveries and answers alternate, an unanswered delivery being exactly a wait.
   */
  lemma {:induction false} RunOk(steps: seq<ConnStep>, u: UserData, id: nat)
    ensures Accounted(AfterRun(steps), u) && InboundOk(AfterRun(steps), id)
  {
    hide AfterStep;
    if steps != [] {
      RunOk(steps[..|steps| - 1], u, id);
      StepAccounts(AfterRun(steps[..|steps| - 1]), steps[|steps| - 1], u);
      StepInbound(AfterRun(steps[..|steps| - 1]), steps[|steps| - 1], id);
    }
  }

  /** A query injected once is reported at most once, and not while it is still under way. */
  lemma ReportedOnce(steps: seq<ConnStep>, u: UserData)
    requires Tally(AfterRun(steps).injected, Is(u)) <= 1
    ensures var c := AfterRun(steps);
            && Tally(c.reported, Tells(u)) <= 1
            && (Tally(c.reported, Tells(u)) == 1 ==>
                  Tally(c.subs, Carries(u)) == Tally(c.opening, Opens(u)) == Tally(c.silent, Is(u)) == 0)
  {
    RunOk(steps, u, 0);
  }
}

/** How the order session moves: in the order of the states, only on the answer that is awaited, always
    towards being ready; and how often stale orders are checked. */
module OrderSessionProgress {
  import opened Common
  import opened TradeRouter
  import opened OrderSession
  import opened OrderSessionSafety
  import RestResponse

  // ----- the moves

  /** The answer that the download waits for in its state. */
  predicate Answers(cfg: Config, s: Session, e: Event) {
    match e
    case Text(m, _) =>
      (match Dispatch(m.envelope, cfg.allowUnknown, cfg.asserts)
       case Handled(TradeSubscribe) => m.envelope.channel in AwaitedChannels(s.state)
       case Handled(TradeOrderList) => s.state.GetOpenOrders?
       case Handled(TradeOrderStatus) => s.state.GetStaleOrders?
       case _ => false)
    case Timer(alive, _, _) => alive && Awaited(s.state).Some? && PhaseOf(s.requests, Awaited(s.state).value).Committed?
    case _ => false
  }

  /** The state after an answer. */
  function StateAfter(cfg: Config, s: Session, e: Event): State
    requires !s.state.Done?
  {
    if e.Text? && s.state.GetOpenOrders? then (if |e.orders| > 0 then GetStaleOrders else SubscribeTrades)
    else if e.Text? && s.state.GetStaleOrders? && s.stale > 1 then GetStaleOrders
    else NextWait(cfg, s)
  }

  /** While the download is under way, its state changes exactly on the answer it waits for. */
  predicate Moved(cfg: Config, s: Session, t: Session, e: Event) {
    !s.state.Undefined? && !s.state.Done? ==>
      if Answers(cfg, s, e) then t.state == StateAfter(cfg, s, e) && (t.state == s.state ==> t.stale == s.stale - 1)
      else t.state == s.state && t.stale == s.stale
  }

  lemma StepMoves(cfg: Config, sys: System, e: Event)
    requires sys.session.fault.NoFault? && Inv(cfg, sys) && Legal(cfg, sys, e) && !e.SocketDisconnected?
    requires Step(cfg, sys, e).session.fault.NoFault?
    ensures Moved(cfg, sys.session, Step(cfg, sys, e).session, e)
  {
    match e
    case Text(m, orders) =>
      TextStep(cfg, sys, m, orders);
      TextMoves(cfg, sys, m, orders);
    case Timer(alive, now, orders) =>
      TimerKeeps(cfg, sys.session, alive, now, orders);
      TimerMoves(cfg, sys.session, alive, now, orders);
    case _ =>
  }

  /** What is left of the session when its message has been taken off the wire. */
  function Taken(cfg: Config, s: Session, m: Message): Session {
    s.(wire := Answered(cfg, s.wire, m))
  }

  /** Entering a state that waits for the REST stream asks for its request anew; nothing else touches the
      requests. */
  ghost predicate AsksAnew(s: Session, t: Session) {
    if Awaited(t.state).Some? && t.state != s.state then PhaseOf(t.requests, Awaited(t.state).value).Requested?
    else t.requests == s.requests
  }

  lemma LoginMoves(cfg: Config, sys: System, m: Message, orders: seq<StaleOrder>)
    requires sys.session.fault.NoFault? && Inv(cfg, sys) && Legal(cfg, sys, Text(m, orders))
    requires Dispatch(m.envelope, cfg.allowUnknown, cfg.asserts) == Handled(TradeLogin)
    ensures var s := sys.session; var t := OnText(cfg, Taken(cfg, s, m), m, orders);
      t.fault.NoFault? ==> AsksAnew(s, t) && Moved(cfg, s, t, Text(m, orders))
  {
    LoginKeeps(cfg, Taken(cfg, sys.session, m), m.envelope.headerStatus, m.uid);
  }

  lemma SubscribeMoves(cfg: Config, sys: System, m: Message, orders: seq<StaleOrder>)
    requires sys.session.fault.NoFault? && Inv(cfg, sys) && Legal(cfg, sys, Text(m, orders))
    requires Dispatch(m.envelope, cfg.allowUnknown, cfg.asserts) == Handled(TradeSubscribe)
    ensures var s := sys.session; var t := OnText(cfg, Taken(cfg, s, m), m, orders);
      t.fault.NoFault? ==> AsksAnew(s, t) && Moved(cfg, s, t, Text(m, orders))
  {
    var s := sys.session;
    var before := Taken(cfg, s, m);
    OneChannelAwaited(s.state, m.envelope.channel);
    assert before.wire.subscriptions == multiset{};
    if m.success {
      assert OnText(cfg, before, m, orders) == Advance(cfg, before);
      AdvanceIs(cfg, before);
    }
  }

  lemma OrderListMoves(cfg: Config, sys: System, m: Message, orders: seq<StaleOrder>)
    requires sys.session.fault.NoFault? && Inv(cfg, sys) && Legal(cfg, sys, Text(m, orders))
    requires Dispatch(m.envelope, cfg.allowUnknown, cfg.asserts) == Handled(TradeOrderList)
    ensures var s := sys.session; var t := OnText(cfg, Taken(cfg, s, m), m, orders);
      t.fault.NoFault? ==> AsksAnew(s, t) && Moved(cfg, s, t, Text(m, orders))
  {
    OrderListKeeps(cfg, sys.session, m.decodable, orders);
  }

  lemma OrderStatusMoves(cfg: Config, sys: System, m: Message, orders: seq<StaleOrder>)
    requires sys.session.fault.NoFault? && Inv(cfg, sys) && Legal(cfg, sys, Text(m, orders))
    requires Dispatch(m.envelope, cfg.allowUnknown, cfg.asserts) == Handled(TradeOrderStatus)
    ensures var s := sys.session; var t := OnText(cfg, Taken(cfg, s, m), m, orders);
      t.fault.NoFault? ==> AsksAnew(s, t) && Moved(cfg, s, t, Text(m, orders))
  {
    RemoveOne(sys.session.wire.statuses, m.requestId);
    OrderStatusKeeps(cfg, sys.session, m.decodable, m.requestId);
  }

  lemma TextStep(cfg: Config, sys: System, m: Message, orders: seq<StaleOrder>)
    requires sys.session.fault.NoFault?
    ensures Step(cfg, sys, Text(m, orders)).session == OnText(cfg, Taken(cfg, sys.session, m), m, orders)
  {
  }

  lemma TextMoves(cfg: Config, sys: System, m: Message, orders: seq<StaleOrder>)
    requires sys.session.fault.NoFault? && Inv(cfg, sys) && Legal(cfg, sys, Text(m, orders))
    ensures var s := sys.session; var t := OnText(cfg, Taken(cfg, s, m), m, orders);
      t.fault.NoFault? ==> AsksAnew(s, t) && Moved(cfg, s, t, Text(m, orders))
  {
    match Dispatch(m.envelope, cfg.allowUnknown, cfg.asserts)
    case Handled(TradeLogin) => LoginMoves(cfg, sys, m, orders);
    case Handled(TradeSubscribe) => SubscribeMoves(cfg, sys, m, orders);
    case Handled(TradeOrderList) => OrderListMoves(cfg, sys, m, orders);
    case Handled(TradeOrderStatus) => OrderStatusMoves(cfg, sys, m, orders);
    case _ =>
  }

  lemma TimerMoves(cfg: Config, s: Session, alive: bool, now: int, orders: seq<StaleOrder>)
    requires s.fault.NoFault? && SessionInv(cfg, s)
    ensures Answers(cfg, s, Timer(alive, now, orders)) ==> OnTimer(cfg, s, alive, now, orders).state == NextWait(cfg, s)
  {
    if Answers(cfg, s, Timer(alive, now, orders)) {
      AdvanceKeeps(cfg, s);
      var t := CheckRequestQueue(cfg, s);
      if ChecksStaleOrders(t, now) {
        StaleOrdersCounted(t.(nextCheck := now + cfg.checkFrequency), orders, |orders|);
      }
    }
  }

  /** Without a disconnect, states still to come and open order statuses never grow, lexicographically,
      and every awaited answer makes them less. */
  lemma EveryAnswerIsProgress(cfg: Config, sys: System, e: Event)
    requires sys.session.fault.NoFault? && Inv(cfg, sys) && Legal(cfg, sys, e) && !e.SocketDisconnected?
    requires !sys.session.state.Undefined? && !sys.session.state.Done?
    requires Step(cfg, sys, e).session.fault.NoFault?
    ensures var s, t := sys.session, Step(cfg, sys, e).session;
      if Answers(cfg, s, e) then Left(t.state) < Left(s.state) || (t.state == s.state && t.stale < s.stale)
      else t.state == s.state && t.stale == s.stale
  {
    StepMoves(cfg, sys, e);
    NextIsLess(cfg, sys.session, e);
  }

  lemma NextIsLess(cfg: Config, s: Session, e: Event)
    requires !s.state.Undefined? && !s.state.Done?
    ensures StateAfter(cfg, s, e) == s.state || Left(StateAfter(cfg, s, e)) < Left(s.state)
  {
  }

  // ----- the two streams

  /** The system at the n-th event is in this state and nothing has failed. */
  ghost predicate InState(cfg: Config, events: seq<Event>, n: nat, st: State) {
    n <= |events| && var s := After(cfg, INIT, events, n).session; s.fault.NoFault? && s.state == st
  }

  lemma FaultStays(cfg: Config, sys: System, e: Event)
    ensures !sys.session.fault.NoFault? ==> Step(cfg, sys, e) == sys
  {
  }

  /** A committed request has been committed while the download waited for it: entering the state asks
      for it anew. */
  lemma CommitStep(cfg: Config, sys: System, e: Event, k: Kind)
    requires sys.session.fault.NoFault? && Inv(cfg, sys) && Legal(cfg, sys, e)
    requires var t := Step(cfg, sys, e).session;
      t.fault.NoFault? && Awaited(t.state) == Some(k) && PhaseOf(t.requests, k).Committed?
    ensures sys.session.state == Step(cfg, sys, e).session.state
    ensures PhaseOf(sys.session.requests, k).Committed? || (e.RestReply? && e.kind == k)
  {
    match e
    case Text(m, orders) =>
      TextStep(cfg, sys, m, orders);
      TextMoves(cfg, sys, m, orders);
    case Timer(alive, now, orders) => TimerAsksNothing(cfg, sys.session, alive, now, orders);
    case _ =>
  }

  lemma {:induction false} StatusRequestsKeep(s: Session, orders: seq<StaleOrder>, n: nat)
    requires n <= |orders|
    ensures var t := CheckStaleOrders(s, orders, n);
      t.state == s.state && t.requests == s.requests && t.nextCheck == s.nextCheck
  {
    if n > 0 {
      StatusRequestsKeep(s, orders, n - 1);
    }
  }

  lemma TimerAsksNothing(cfg: Config, s: Session, alive: bool, now: int, orders: seq<StaleOrder>)
    requires s.fault.NoFault? && SessionInv(cfg, s)
    ensures var t := OnTimer(cfg, s, alive, now, orders);
      Awaited(t.state).Some? ==> t.state == s.state && t.requests == s.requests
  {
    QueueAsksNothing(cfg, s);
    StatusRequestsKeep(CheckRequestQueue(cfg, s).(nextCheck := now + cfg.checkFrequency), orders, |orders|);
  }

  lemma QueueAsksNothing(cfg: Config, s: Session)
    requires s.fault.NoFault? && SessionInv(cfg, s)
    ensures var t := CheckRequestQueue(cfg, s); Awaited(t.state).Some? ==> t == s
  {
    if Awaited(s.state).Some? && PhaseOf(s.requests, Awaited(s.state).value).Committed? {
      AdvanceKeeps(cfg, s);
    }
  }

  /** The n-th state waits for this kind of request, and it is committed. */
  ghost predicate CommittedIn(cfg: Config, events: seq<Event>, n: nat, st: State, k: Kind) {
    InState(cfg, events, n, st) && PhaseOf(After(cfg, INIT, events, n).session.requests, k).Committed?
  }

  lemma CommitAt(cfg: Config, events: seq<Event>, n: nat, st: State, k: Kind)
    requires LegalRun(cfg, INIT, events) && n < |events| && Awaited(st) == Some(k)
    requires CommittedIn(cfg, events, n + 1, st, k)
    ensures InState(cfg, events, n, st)
    ensures CommittedIn(cfg, events, n, st, k) || (events[n].RestReply? && events[n].kind == k)
  {
    var sys := After(cfg, INIT, events, n);
    InitIsSafe(cfg);
    RunKeeps(cfg, INIT, events, n);
    FaultStays(cfg, sys, events[n]);
    assert LegalAt(cfg, INIT, events, n);
    CommitStep(cfg, sys, events[n], k);
  }

  /** The reply that committed the request, during this stay in the state. */
  lemma {:induction false} CommittedByReply(cfg: Config, events: seq<Event>, n: nat, st: State, k: Kind)
    returns (j: nat)
    requires LegalRun(cfg, INIT, events) && n <= |events| && Awaited(st) == Some(k)
    requires CommittedIn(cfg, events, n, st, k)
    ensures j < n && events[j].RestReply? && events[j].kind == k
    ensures forall m :: j <= m <= n ==> InState(cfg, events, m, st)
  {
    CommitAt(cfg, events, n - 1, st, k);
    if CommittedIn(cfg, events, n - 1, st, k) {
      j := CommittedByReply(cfg, events, n - 1, st, k);
    } else {
      j := n - 1;
    }
  }

  /** The order stream leaves a state that waits for the REST stream only on its own timer, and only after
      the REST stream has had a reply to that very kind of request during the same stay in the state. */
  lemma LeavesAfterReply(cfg: Config, events: seq<Event>, n: nat, st: State, k: Kind) returns (j: nat)
    requires LegalRun(cfg, INIT, events) && n < |events|
    requires InState(cfg, events, n, st) && Awaited(st) == Some(k)
    requires var t := After(cfg, INIT, events, n + 1).session; t.fault.NoFault? && t.state != st && !t.state.Undefined?
    ensures events[n].Timer?
    ensures j < n && events[j].RestReply? && events[j].kind == k
    ensures forall m :: j <= m <= n ==> InState(cfg, events, m, st)
  {
    var sys := After(cfg, INIT, events, n);
    InitIsSafe(cfg);
    RunKeeps(cfg, INIT, events, n);
    assert LegalAt(cfg, INIT, events, n);
    StepMoves(cfg, sys, events[n]);
    assert Answers(cfg, sys.session, events[n]);
    assert AwaitedChannels(st) == multiset{};
    j := CommittedByReply(cfg, events, n, st, k);
  }

  // ----- every session can become ready

  /** A reply of the exchange that is routed to the session. */
  function Reply(h: Handler, channel: Channel, id: OrderId): Message {
    var e := match h
      case TradeSubscribe => Envelope(0, 0, UndefinedChannel, UndefinedEvent, Subscribe, channel)
      case _ => Envelope(0, 200, channel, Api, UndefinedEvent, UndefinedChannel);
    Message(e, 1, true, id, true)
  }

  const NO_ID := OrderId("")

  /** A connection that waits for the answer to its login, or is past it. */
  ghost predicate OnTheWay(cfg: Config, sys: System) {
    && sys.up && sys.session.fault.NoFault? && Inv(cfg, sys)
    && (sys.session.state.Undefined? ==> sys.session.wire.logins == 1)
  }

  /** How far the REST stream is from committing the request that is awaited. */
  function PhasesLeft(sys: System): nat {
    if Awaited(sys.session.state).None? then 0
    else
      match PhaseOf(sys.session.requests, Awaited(sys.session.state).value)
      case Idle => 0
      case Requested => if sys.restReady then 2 else 3
      case InFlight => 1
      case Committed => 0
  }

  ghost predicate Nearer(sys: System, next: System) {
    || Left(next.session.state) < Left(sys.session.state)
    || (next.session.state == sys.session.state
        && (next.session.stale < sys.session.stale
            || (next.session.stale == sys.session.stale && PhasesLeft(next) < PhasesLeft(sys))))
  }

  /** `e` is something that the environment may do, and that brings the session nearer to being ready. */
  ghost predicate Helps(cfg: Config, sys: System, e: Event) {
    && Legal(cfg, sys, e)
    && OnTheWay(cfg, Step(cfg, sys, e))
    && Nearer(sys, Step(cfg, sys, e))
  }

  /** A message helps when it makes the session move on. */
  lemma TextHelps(cfg: Config, sys: System, m: Message)
    requires OnTheWay(cfg, sys) && Legal(cfg, sys, Text(m, []))
    requires var s := sys.session; var t := OnText(cfg, Taken(cfg, s, m), m, []);
      && t.fault.NoFault? && !t.state.Undefined?
      && (Left(t.state) < Left(s.state) || (t.state == s.state && t.stale < s.stale))
    ensures Helps(cfg, sys, Text(m, []))
  {
    StepKeeps(cfg, sys, Text(m, []));
    TextStep(cfg, sys, m, []);
  }

  lemma LoginHelps(cfg: Config, sys: System) returns (e: Event)
    requires OnTheWay(cfg, sys) && sys.session.state.Undefined?
    ensures Helps(cfg, sys, e)
  {
    var m := Reply(TradeLogin, Login, NO_ID);
    e := Text(m, []);
    TextHelps(cfg, sys, m);
  }

  lemma SubscribeRouted(cfg: Config, s: Session, channel: Channel)
    requires channel in AwaitedChannels(s.state)
    ensures var m := Reply(TradeSubscribe, channel, NO_ID);
      && Dispatch(m.envelope, cfg.allowUnknown, cfg.asserts) == Handled(TradeSubscribe)
      && Taken(cfg, s, m) == s.(wire := s.wire.(subscriptions := s.wire.subscriptions - multiset{channel}))
      && OnText(cfg, Taken(cfg, s, m), m, []) == Advance(cfg, Taken(cfg, s, m))
  {
    OneChannelAwaited(s.state, channel);
  }

  /** The subscribe reply that is awaited moves the download on. */
  lemma SubscribeAnswers(cfg: Config, s: Session, channel: Channel)
    requires s.fault.NoFault? && SessionInv(cfg, s) && channel in AwaitedChannels(s.state)
    ensures var m := Reply(TradeSubscribe, channel, NO_ID); var t := OnText(cfg, Taken(cfg, s, m), m, []);
      t.fault.NoFault? && !t.state.Undefined? && Left(t.state) < Left(s.state)
  {
    SubscribeRouted(cfg, s, channel);
    OneChannelAwaited(s.state, channel);
    var before := s.(wire := s.wire.(subscriptions := s.wire.subscriptions - multiset{channel}));
    assert before.wire.subscriptions == multiset{};
    AdvanceKeeps(cfg, before);
  }

  lemma SubscribeHelps(cfg: Config, sys: System, channel: Channel) returns (e: Event)
    requires OnTheWay(cfg, sys) && channel in AwaitedChannels(sys.session.state)
    ensures Helps(cfg, sys, e)
  {
    var m := Reply(TradeSubscribe, channel, NO_ID);
    e := Text(m, []);
    SubscribeRouted(cfg, sys.session, channel);
    SubscribeAnswers(cfg, sys.session, channel);
    TextHelps(cfg, sys, m);
  }

  lemma OrderListHelps(cfg: Config, sys: System) returns (e: Event)
    requires OnTheWay(cfg, sys) && sys.session.state.GetOpenOrders?
    ensures Helps(cfg, sys, e)
  {
    var m := Reply(TradeOrderList, OrderList, NO_ID);
    e := Text(m, []);
    AdvanceKeeps(cfg, Taken(cfg, sys.session, m));
    TextHelps(cfg, sys, m);
  }

  lemma OrderStatusHelps(cfg: Config, sys: System) returns (e: Event)
    requires OnTheWay(cfg, sys) && sys.session.state.GetStaleOrders?
    ensures Helps(cfg, sys, e)
  {
    var id :| id in sys.session.wire.statuses;
    var m := Reply(TradeOrderStatus, OrderStatus, id);
    e := Text(m, []);
    RemoveOne(sys.session.wire.statuses, id);
    if sys.session.stale == 1 {
      AdvanceKeeps(cfg, Taken(cfg, sys.session, m).(stale := 0));
    }
    TextHelps(cfg, sys, m);
  }

  lemma SendingHelps(cfg: Config, sys: System, k: Kind) returns (e: Event)
    requires OnTheWay(cfg, sys) && Awaited(sys.session.state) == Some(k)
    requires PhaseOf(sys.session.requests, k).Requested?
    ensures Helps(cfg, sys, e)
  {
    if sys.restReady {
      e := RestTimer(true, k.BalancesKind?, k.PositionsKind?, k.TradesKind?);
      assert Step(cfg, sys, e) == CheckPending(sys, k, true);
    } else {
      e := RestConnected;
    }
    StepKeeps(cfg, sys, e);
  }

  lemma ReplyHelps(cfg: Config, sys: System, k: Kind) returns (e: Event)
    requires OnTheWay(cfg, sys) && Awaited(sys.session.state) == Some(k)
    requires PhaseOf(sys.session.requests, k).InFlight?
    ensures Helps(cfg, sys, e)
  {
    var response := RestResponse.Response(RestResponse.Success, RestResponse.OtherStatus, None, None);
    e := RestReply(k, response);
    assert RestResponse.Process(response, cfg.asserts).Returned?;
    StepKeeps(cfg, sys, e);
    CommitKeeps(sys.session.requests, sys.http, k, 0);
  }

  lemma CommitHelps(cfg: Config, sys: System, k: Kind) returns (e: Event)
    requires OnTheWay(cfg, sys) && Awaited(sys.session.state) == Some(k)
    requires PhaseOf(sys.session.requests, k).Committed?
    ensures Helps(cfg, sys, e)
  {
    e := Timer(true, sys.session.nextCheck, []);
    AdvanceKeeps(cfg, sys.session);
    StepKeeps(cfg, sys, e);
    NextIsLess(cfg, sys.session, e);
  }

  lemma RestHelps(cfg: Config, sys: System, k: Kind) returns (e: Event)
    requires OnTheWay(cfg, sys) && Awaited(sys.session.state) == Some(k)
    ensures Helps(cfg, sys, e)
  {
    match PhaseOf(sys.session.requests, k)
    case Requested => e := SendingHelps(cfg, sys, k);
    case InFlight => e := ReplyHelps(cfg, sys, k);
    case Committed => e := CommitHelps(cfg, sys, k);
  }

  lemma SomethingHelps(cfg: Config, sys: System) returns (e: Event)
    requires OnTheWay(cfg, sys) && !sys.session.state.Done?
    ensures Helps(cfg, sys, e)
  {
    match sys.session.state
    case Undefined => e := LoginHelps(cfg, sys);
    case SubscribeBalances => e := SubscribeHelps(cfg, sys, Balances);
    case GetBalances => e := RestHelps(cfg, sys, BalancesKind);
    case SubscribePositions => e := SubscribeHelps(cfg, sys, Positions);
    case GetPositions => e := RestHelps(cfg, sys, PositionsKind);
    case SubscribeOrders => e := SubscribeHelps(cfg, sys, Orders);
    case GetOpenOrders => e := OrderListHelps(cfg, sys);
    case GetStaleOrders => e := OrderStatusHelps(cfg, sys);
    case SubscribeTrades => e := SubscribeHelps(cfg, sys, UserTrades);
    case GetTrades => e := RestHelps(cfg, sys, TradesKind);
  }

  lemma {:induction false} Prepend(cfg: Config, sys: System, e: Event, rest: seq<Event>, n: nat)
    requires n <= |rest|
    ensures After(cfg, sys, [e] + rest, n + 1) == After(cfg, Step(cfg, sys, e), rest, n)
  {
    if n > 0 {
      Prepend(cfg, sys, e, rest, n - 1);
      assert ([e] + rest)[n] == rest[n - 1];
    } else {
      assert After(cfg, sys, [e] + rest, 0) == sys;
    }
  }

  lemma PrependLegal(cfg: Config, sys: System, e: Event, rest: seq<Event>)
    requires Legal(cfg, sys, e) && LegalRun(cfg, Step(cfg, sys, e), rest)
    ensures LegalRun(cfg, sys, [e] + rest)
  {
    var run := [e] + rest;
    forall n | 0 <= n < |run|
      ensures LegalAt(cfg, sys, run, n)
    {
      if n > 0 {
        Prepend(cfg, sys, e, rest, n - 1);
        assert LegalAt(cfg, Step(cfg, sys, e), rest, n - 1);
        assert run[n] == rest[n - 1];
      }
    }
  }

  /** The download is never stranded: from every reachable point after the login has been sent, in every
      state and phase, there is a way for exchange and REST stream to bring this very connection to ready. */
  lemma {:induction false} CanBecomeReady(cfg: Config, sys: System) returns (run: seq<Event>)
    requires OnTheWay(cfg, sys)
    ensures LegalRun(cfg, sys, run)
    ensures var s := After(cfg, sys, run, |run|).session; s.fault.NoFault? && s.ready
    decreases Left(sys.session.state), sys.session.stale, PhasesLeft(sys)
  {
    if sys.session.state.Done? {
      run := [];
    } else {
      var e := SomethingHelps(cfg, sys);
      var rest := CanBecomeReady(cfg, Step(cfg, sys, e));
      run := [e] + rest;
      PrependLegal(cfg, sys, e, rest);
      Prepend(cfg, sys, e, rest, |rest|);
    }
  }

  /** ... in particular from every state that a run can lead to, while the connection is up and its login
      is not lost. */
  lemma ReachableCanBecomeReady(cfg: Config, events: seq<Event>, n: nat) returns (run: seq<Event>)
    requires LegalRun(cfg, INIT, events) && n <= |events|
    requires var sys := After(cfg, INIT, events, n);
      sys.up && sys.session.fault.NoFault? && (sys.session.state.Undefined? ==> sys.session.wire.logins > 0)
    ensures LegalRun(cfg, After(cfg, INIT, events, n), run)
    ensures var s := After(cfg, After(cfg, INIT, events, n), run, |run|).session; s.fault.NoFault? && s.ready
  {
    InitIsSafe(cfg);
    RunKeeps(cfg, INIT, events, n);
    run := CanBecomeReady(cfg, After(cfg, INIT, events, n));
  }

  // ----- how often stale orders are checked

  /** This event makes the timer check for stale orders. */
  predicate ChecksNow(cfg: Config, sys: System, e: Event) {
    sys.session.fault.NoFault? && e.Timer? && e.alive && ChecksStaleOrders(CheckRequestQueue(cfg, sys.session), e.now)
  }

  lemma {:induction false} AdvanceKeepsDeadline(cfg: Config, s: Session)
    requires !s.state.Done?
    ensures Advance(cfg, s).nextCheck == s.nextCheck
    decreases Left(s.state)
  {
    var t := Download(cfg, s.(state := Next(s.state)), Next(s.state));
    if !t.state.Done? && !Waits(cfg, t, t.state) {
      AdvanceKeepsDeadline(cfg, t);
    }
  }

  lemma TextKeepsDeadline(cfg: Config, s: Session, m: Message, orders: seq<StaleOrder>)
    ensures OnText(cfg, s, m, orders).nextCheck == s.nextCheck
  {
    match Dispatch(m.envelope, cfg.allowUnknown, cfg.asserts)
    case Handled(TradeLogin) => AdvanceKeepsDeadline(cfg, s.(userId := m.uid, state := Undefined));
    case Handled(TradeSubscribe) =>
      if !s.state.Done? {
        AdvanceKeepsDeadline(cfg, s);
      }
    case Handled(TradeOrderList) =>
      StatusRequestsKeep(s, orders, |orders|);
      if s.state.GetOpenOrders? {
        AdvanceKeepsDeadline(cfg, CheckStaleOrders(s, orders, |orders|));
      }
    case Handled(TradeOrderStatus) =>
      if s.state.GetStaleOrders? && s.stale > 0 {
        AdvanceKeepsDeadline(cfg, s.(stale := s.stale - 1));
      }
    case _ =>
  }

  /** Looking at the requests leaves the deadline alone. */
  lemma QueueKeepsDeadline(cfg: Config, s: Session)
    ensures CheckRequestQueue(cfg, s).nextCheck == s.nextCheck
  {
    if !s.state.Done? {
      AdvanceKeepsDeadline(cfg, s);
    }
  }

  lemma TimerDeadline(cfg: Config, s: Session, alive: bool, now: int, orders: seq<StaleOrder>)
    ensures OnTimer(cfg, s, alive, now, orders).nextCheck
      == if alive && ChecksStaleOrders(CheckRequestQueue(cfg, s), now) then now + cfg.checkFrequency else s.nextCheck
  {
    QueueKeepsDeadline(cfg, s);
    StatusRequestsKeep(CheckRequestQueue(cfg, s).(nextCheck := now + cfg.checkFrequency), orders, |orders|);
  }

  /** The deadline changes only when a check is made, whatever else happens, disconnects included. */
  lemma DeadlineStep(cfg: Config, sys: System, e: Event)
    ensures Step(cfg, sys, e).session.nextCheck
      == if ChecksNow(cfg, sys, e) then e.now + cfg.checkFrequency else sys.session.nextCheck
  {
    var s := sys.session;
    match e
    case Text(m, orders) => TextKeepsDeadline(cfg, Taken(cfg, s, m), m, orders);
    case Timer(alive, now, orders) => TimerDeadline(cfg, s, alive, now, orders);
    case _ =>
  }

  /** What the clock reads at the checks among the first `n` events. */
  ghost function CheckTimes(cfg: Config, sys: System, events: seq<Event>, n: nat): seq<int>
    requires n <= |events|
  {
    if n == 0 then []
    else CheckTimes(cfg, sys, events, n - 1) + CheckTime(cfg, After(cfg, sys, events, n - 1), events[n - 1])
  }

  ghost function CheckTime(cfg: Config, sys: System, e: Event): seq<int> {
    if ChecksNow(cfg, sys, e) then [e.now] else []
  }

  ghost predicate Spaced(times: seq<int>, f: int) {
    forall i :: 0 < i < |times| ==> times[i - 1] + f < times[i]
  }

  /** The checks so far are spaced, and the deadline is one period after the last. */
  ghost predicate SpacedUpTo(times: seq<int>, deadline: int, f: int) {
    Spaced(times, f) && (times != [] ==> deadline == times[|times| - 1] + f)
  }

  lemma SpacedSnoc(times: seq<int>, deadline: int, f: int, now: int)
    requires SpacedUpTo(times, deadline, f) && deadline < now
    ensures SpacedUpTo(times + [now], now + f, f)
  {
  }

  lemma CheckTimeStep(cfg: Config, sys: System, e: Event)
    ensures var times := CheckTime(cfg, sys, e);
      if times == [] then Step(cfg, sys, e).session.nextCheck == sys.session.nextCheck
      else
        && |times| == 1 && sys.session.nextCheck < times[0]
        && Step(cfg, sys, e).session.nextCheck == times[0] + cfg.checkFrequency
  {
    DeadlineStep(cfg, sys, e);
    QueueKeepsDeadline(cfg, sys.session);
  }

  ghost predicate SpacedAt(cfg: Config, sys: System, events: seq<Event>, n: nat)
    requires n <= |events|
  {
    SpacedUpTo(CheckTimes(cfg, sys, events, n), After(cfg, sys, events, n).session.nextCheck, cfg.checkFrequency)
  }

  lemma SpacedStep(cfg: Config, sys: System, events: seq<Event>, n: nat)
    requires n < |events| && SpacedAt(cfg, sys, events, n)
    ensures SpacedAt(cfg, sys, events, n + 1)
  {
    var times, before := CheckTimes(cfg, sys, events, n), After(cfg, sys, events, n);
    CheckTimeStep(cfg, before, events[n]);
    var more := CheckTime(cfg, before, events[n]);
    assert CheckTimes(cfg, sys, events, n + 1) == times + more;
    if more != [] {
      assert more == [more[0]];
      SpacedSnoc(times, before.session.nextCheck, cfg.checkFrequency, more[0]);
    } else {
      assert times + more == times;
    }
  }

  lemma SpacedAtFirst(cfg: Config, sys: System, events: seq<Event>)
    ensures SpacedAt(cfg, sys, events, 0)
  {
  }

  /** In every run, disconnects and all, two checks for stale orders are more than the configured period
      apart; the clock need not be monotonic for that. */
  lemma ChecksAreSpaced(cfg: Config, sys: System, events: seq<Event>, n: nat)
    requires n <= |events|
    ensures Spaced(CheckTimes(cfg, sys, events, n), cfg.checkFrequency)
  {
    SpacedAtFirst(cfg, sys, events);
    for i := 0 to n
      invariant SpacedAt(cfg, sys, events, i)
    {
      SpacedStep(cfg, sys, events, i);
    }
  }

  lemma {:induction false} SpacedApart(times: seq<int>, f: int, i: nat, j: nat)
    requires Spaced(times, f) && i <= j < |times|
    ensures (j - i) * f <= times[j] - times[i]
    decreases j - i
  {
    if i < j {
      SpacedApart(times, f, i, j - 1);
      assert (j - i) * f == (j - 1 - i) * f + f;
    }
  }

  /** A window of the clock sees at most its length over the period, plus one, checks. */
  lemma StaleChecksAreRateLimited(cfg: Config, sys: System, events: seq<Event>, i: nat, j: nat, from: int, to: int)
    requires cfg.checkFrequency > 0
    requires var times := CheckTimes(cfg, sys, events, |events|); i <= j < |times| && from <= times[i] && times[j] <= to
    ensures j - i + 1 <= (to - from) / cfg.checkFrequency + 1
  {
    ChecksAreSpaced(cfg, sys, events, |events|);
    var times := CheckTimes(cfg, sys, events, |events|);
    SpacedApart(times, cfg.checkFrequency, i, j);
    FitsIn(j - i, cfg.checkFrequency, to - from);
  }

  lemma FitsIn(n: nat, f: int, t: int)
    requires f > 0
    ensures n * f <= t ==> n <= t / f
  {
    var q := t / f;
    MulMonotone(q + 1, n, f);
    assert (q + 1) * f == q * f + f;
  }

  lemma MulMonotone(x: int, y: int, m: int)
    requires m > 0
    ensures x <= y ==> x * m <= y * m
  {
  }
}

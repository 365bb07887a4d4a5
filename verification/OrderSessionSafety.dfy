/** What every run of the order session keeps: no internal fault, one open obligation for every state of
    the download, and a complete account of what has been answered. */
module OrderSessionSafety {
  import opened TradeRouter
  import opened OrderSession
  import RestResponse

  // ----- the invariant

  /** The subscribe reply that a state waits for. */
  function AwaitedChannels(st: State): multiset<Channel> {
    match st
    case SubscribeBalances => multiset{Balances}
    case SubscribePositions => multiset{Positions}
    case SubscribeOrders => multiset{Orders}
    case SubscribeTrades => multiset{UserTrades}
    case _ => multiset{}
  }

  /** While the download is in a state, exactly its obligation is open: one subscribe reply, one order
      list, a request with the REST stream, or at least one order status. The counter of stale orders is
      the number of order status requests on the wire. */
  ghost predicate ObligationsOpen(cfg: Config, s: Session) {
    && s.wire.logins <= (if s.status.LoginSent? then 1 else 0)
    && s.wire.subscriptions == AwaitedChannels(s.state)
    && s.wire.lists == (if s.state.GetOpenOrders? then 1 else 0)
    && s.stale == |s.wire.statuses|
    && (s.stale > 0 ==> s.state.GetStaleOrders? || s.state.Done?)
    && (s.state.GetStaleOrders? ==> s.stale > 0)
    && (Awaited(s.state).Some? ==> !PhaseOf(s.requests, Awaited(s.state).value).Idle?)
    && (s.state.GetTrades? ==> cfg.tradesLookback != 0)
  }

  /** Readiness, connection status and download state agree. */
  ghost predicate StatusAgrees(s: Session) {
    && (s.ready <==> s.state.Done?)
    && (s.status.Ready? <==> s.state.Done?)
    && (s.status.Downloading? <==> !s.state.Undefined? && !s.state.Done?)
    && (!s.state.Undefined? ==> s.userId > 0)
  }

  /** What a download in this state has had answered: subscribe replies, order lists, REST requests. */
  datatype Account = Account(subscriptions: nat, lists: nat, consumed: nat)

  function AccountOf(cfg: Config, st: State): Account {
    match st
    case Undefined => Account(0, 0, 0)
    case SubscribeBalances => Account(0, 0, 0)
    case GetBalances => Account(1, 0, 0)
    case SubscribePositions => Account(1, 0, 1)
    case GetPositions => Account(2, 0, 1)
    case SubscribeOrders => Account(2, 0, 2)
    case GetOpenOrders => Account(3, 0, 2)
    case GetStaleOrders => Account(3, 1, 2)
    case SubscribeTrades => Account(3, 1, 2)
    case GetTrades => Account(4, 1, 2)
    case Done => Account(4, 1, if cfg.tradesLookback != 0 then 3 else 2)
  }

  ghost predicate Accounted(cfg: Config, s: Session, t: Tally) {
    AccountOf(cfg, s.state) == Account(t.subscriptions, t.lists, t.consumed) && t.statuses + s.stale == t.asked
  }

  /** A request that is in flight has a reply to come. */
  ghost predicate RepliesDue(r: Requests, h: Counts) {
    && (r.balances.InFlight? ==> h.balances > 0)
    && (r.positions.InFlight? ==> h.positions > 0)
    && (r.trades.InFlight? ==> h.trades > 0)
  }

  /** Nothing is in flight in `t` that was not in flight in `r`. */
  ghost predicate NoNewFlight(r: Requests, t: Requests) {
    && (t.balances.InFlight? ==> r.balances.InFlight?)
    && (t.positions.InFlight? ==> r.positions.InFlight?)
    && (t.trades.InFlight? ==> r.trades.InFlight?)
  }

  ghost predicate SessionInv(cfg: Config, s: Session) {
    ObligationsOpen(cfg, s) && StatusAgrees(s)
  }

  ghost predicate Inv(cfg: Config, sys: System) {
    && SessionInv(cfg, sys.session)
    && (!sys.up ==> sys.session.state.Undefined? && sys.session.wire == SILENT)
    && (!sys.session.state.Undefined? ==> Accounted(cfg, sys.session, sys.tally))
    && RepliesDue(sys.session.requests, sys.http)
  }

  /** The process has not ended for a reason of its own. */
  ghost predicate Safe(cfg: Config, sys: System) {
    if sys.session.fault.NoFault? then Inv(cfg, sys) else !Internal(sys.session.fault)
  }

  // ----- advancing

  /** A session whose download has just been answered in its state, and is to move on. */
  ghost predicate Answerable(s: Session) {
    && s.fault.NoFault? && !s.state.Undefined? && !s.state.Done? && !s.ready && s.status.Downloading? && s.userId > 0
    && s.wire.logins == 0 && s.wire.subscriptions == multiset{} && s.wire.lists == 0 && s.stale == |s.wire.statuses|
    && (s.stale > 0 ==> s.state.GetOpenOrders?)
  }

  /** The next state in which the download waits, or the last one. */
  function NextWait(cfg: Config, s: Session): State
    requires !s.state.Done?
  {
    if s.state.GetOpenOrders? && s.stale == 0 then SubscribeTrades
    else if s.state.SubscribeTrades? && cfg.tradesLookback == 0 then Done
    else Next(s.state)
  }

  /** Moving on from a state puts on the account what was awaited in it. */
  lemma AccountMovesOn(cfg: Config, s: Session)
    requires !s.state.Undefined? && !s.state.Done? && (s.state.GetTrades? ==> cfg.tradesLookback != 0)
    ensures var a, b := AccountOf(cfg, s.state), AccountOf(cfg, NextWait(cfg, s));
      if Awaited(s.state).Some? then b == a.(consumed := a.consumed + 1)
      else if s.state.GetOpenOrders? then b == a.(lists := 1)
      else if s.state.GetStaleOrders? then b == a
      else b == a.(subscriptions := a.subscriptions + 1)
  {
  }

  lemma AdvanceIs(cfg: Config, s: Session)
    requires Answerable(s)
    ensures var st := NextWait(cfg, s); Advance(cfg, s) == Download(cfg, s.(state := st), st)
  {
    match s.state
    case GetOpenOrders =>
      if s.stale == 0 {
        var t := s.(state := GetStaleOrders);
        assert Advance(cfg, s) == Advance(cfg, t);
        assert Advance(cfg, t) == Download(cfg, t.(state := SubscribeTrades), SubscribeTrades);
      }
    case SubscribeTrades =>
      if cfg.tradesLookback == 0 {
        var t := s.(state := GetTrades);
        assert Advance(cfg, s) == Advance(cfg, t);
        assert Advance(cfg, t) == Download(cfg, t.(state := Done), Done);
      }
    case _ =>
  }

  lemma DownloadSubscribes(cfg: Config, s: Session, st: State)
    requires Answerable(s) && s.stale == 0
    requires st.SubscribeBalances? || st.SubscribePositions? || st.SubscribeOrders? || st.SubscribeTrades?
    ensures var t := Download(cfg, s.(state := st), st);
      && t.fault.NoFault? && SessionInv(cfg, t) && t.state == st
      && t.stale == s.stale && t.wire.statuses == s.wire.statuses && t.nextCheck == s.nextCheck
      && t.requests == s.requests
  {
  }

  lemma DownloadAsks(cfg: Config, s: Session, st: State)
    requires Answerable(s) && s.stale == 0 && Awaited(st).Some? && (st.GetTrades? ==> cfg.tradesLookback != 0)
    ensures var t := Download(cfg, s.(state := st), st);
      && t.fault.NoFault? && SessionInv(cfg, t) && t.state == st
      && t.stale == s.stale && t.wire.statuses == s.wire.statuses && t.nextCheck == s.nextCheck
      && NoNewFlight(s.requests, t.requests)
  {
  }

  lemma DownloadKeeps(cfg: Config, s: Session, st: State)
    requires Answerable(s) && st == NextWait(cfg, s)
    ensures var t := Download(cfg, s.(state := st), st);
      && t.fault.NoFault? && SessionInv(cfg, t) && t.state == st
      && t.stale == s.stale && t.wire.statuses == s.wire.statuses && t.nextCheck == s.nextCheck
      && NoNewFlight(s.requests, t.requests)
  {
    if st.SubscribeBalances? || st.SubscribePositions? || st.SubscribeOrders? || st.SubscribeTrades? {
      DownloadSubscribes(cfg, s, st);
    } else if Awaited(st).Some? {
      DownloadAsks(cfg, s, st);
    }
  }

  lemma AdvanceKeeps(cfg: Config, s: Session)
    requires Answerable(s)
    ensures var t := Advance(cfg, s);
      && t.fault.NoFault? && SessionInv(cfg, t) && t.state == NextWait(cfg, s)
      && t.stale == s.stale && t.wire.statuses == s.wire.statuses && t.nextCheck == s.nextCheck
      && NoNewFlight(s.requests, t.requests)
  {
    AdvanceIs(cfg, s);
    DownloadKeeps(cfg, s, NextWait(cfg, s));
  }

  lemma {:induction false} StaleOrdersCounted(s: Session, orders: seq<StaleOrder>, n: nat)
    requires n <= |orders| && s.stale == |s.wire.statuses|
    ensures var t := CheckStaleOrders(s, orders, n);
      && t == s.(stale := s.stale + n, wire := s.wire.(statuses := t.wire.statuses))
      && t.stale == |t.wire.statuses|
  {
    if n > 0 {
      StaleOrdersCounted(s, orders, n - 1);
    }
  }

  // ----- the handlers keep the invariant

  lemma LoginKeeps(cfg: Config, s: Session, status: int, uid: int)
    requires s.fault.NoFault? && SessionInv(cfg, s) && s.status.LoginSent? && s.wire.logins == 0
    ensures var t := OnLogin(cfg, s, status, uid);
      && (if t.fault.NoFault? then SessionInv(cfg, t) else !Internal(t.fault))
      && (t.state.Undefined? || t.state.SubscribeBalances?)
      && t.requests == s.requests && t.nextCheck == s.nextCheck && t.stale == 0
  {
  }

  /** Only the channel that the state waits for can be answered. */
  lemma OneChannelAwaited(st: State, channel: Channel)
    requires channel in AwaitedChannels(st)
    ensures AwaitedChannels(st) == multiset{channel}
    ensures match channel
      case Balances => st.SubscribeBalances?
      case Positions => st.SubscribePositions?
      case Orders => st.SubscribeOrders?
      case UserTrades => st.SubscribeTrades?
      case _ => false
  {
  }

  lemma SubscribeKeeps(cfg: Config, s: Session, success: bool, channel: Channel)
    requires s.fault.NoFault? && SessionInv(cfg, s) && channel in s.wire.subscriptions
    ensures var before := s.(wire := s.wire.(subscriptions := s.wire.subscriptions - multiset{channel}));
      var t := OnSubscribe(cfg, before, success, channel);
      && (if t.fault.NoFault? then SessionInv(cfg, t) && t.state == NextWait(cfg, s) else !Internal(t.fault))
      && t.stale == s.stale && t.wire.statuses == s.wire.statuses && t.nextCheck == s.nextCheck
      && NoNewFlight(s.requests, t.requests)
  {
    OneChannelAwaited(s.state, channel);
    var before := s.(wire := s.wire.(subscriptions := s.wire.subscriptions - multiset{channel}));
    assert before.wire.subscriptions == multiset{};
    if success {
      assert OnSubscribe(cfg, before, success, channel) == Advance(cfg, before);
      AdvanceKeeps(cfg, before);
    }
  }

  lemma OrderListKeeps(cfg: Config, s: Session, decodable: bool, orders: seq<StaleOrder>)
    requires s.fault.NoFault? && SessionInv(cfg, s) && s.wire.lists > 0
    ensures var before := s.(wire := s.wire.(lists := s.wire.lists - 1));
      var t := OnOrderList(cfg, before, decodable, orders);
      && (if t.fault.NoFault? then
            SessionInv(cfg, t) && NewStatuses(s.wire, t.wire) == |orders| == t.stale
            && t.state == (if |orders| > 0 then GetStaleOrders else SubscribeTrades)
          else !Internal(t.fault))
      && t.requests == s.requests && t.nextCheck == s.nextCheck
  {
    if decodable {
      var before := s.(wire := s.wire.(lists := s.wire.lists - 1));
      StaleOrdersCounted(before, orders, |orders|);
      var counted := CheckStaleOrders(before, orders, |orders|);
      AdvanceKeeps(cfg, counted);
      AdvanceIs(cfg, counted);
    }
  }

  lemma RemoveOne(m: multiset<OrderId>, id: OrderId)
    requires id in m
    ensures |m - multiset{id}| == |m| - 1
  {
    assert m == (m - multiset{id}) + multiset{id};
  }

  /** The last stale order has been answered. */
  lemma LastStatusKeeps(cfg: Config, t: Session)
    requires Answerable(t) && t.state.GetStaleOrders? && t.stale == 0
    ensures var u := Advance(cfg, t);
      && u.fault.NoFault? && SessionInv(cfg, u) && u.state.SubscribeTrades?
      && u.stale == 0 && u.requests == t.requests && u.nextCheck == t.nextCheck
  {
    AdvanceIs(cfg, t);
    DownloadSubscribes(cfg, t, SubscribeTrades);
  }

  lemma OrderStatusKeeps(cfg: Config, s: Session, decodable: bool, id: OrderId)
    requires s.fault.NoFault? && SessionInv(cfg, s) && id in s.wire.statuses
    ensures var before := s.(wire := s.wire.(statuses := s.wire.statuses - multiset{id}));
      var t := OnOrderStatus(cfg, before, decodable);
      && (if t.fault.NoFault? then
            SessionInv(cfg, t) && t.stale == s.stale - 1
            && t.state == (if s.state.GetStaleOrders? && s.stale == 1 then SubscribeTrades else s.state)
          else !Internal(t.fault))
      && t.requests == s.requests && t.nextCheck == s.nextCheck
  {
    RemoveOne(s.wire.statuses, id);
    var t := s.(wire := s.wire.(statuses := s.wire.statuses - multiset{id}), stale := s.stale - 1);
    if decodable && t.stale == 0 && s.state.GetStaleOrders? {
      LastStatusKeeps(cfg, t);
    }
  }

  lemma RequestQueueKeeps(cfg: Config, s: Session)
    requires s.fault.NoFault? && SessionInv(cfg, s)
    ensures var t := CheckRequestQueue(cfg, s);
      && t.fault.NoFault? && SessionInv(cfg, t)
      && t.stale == s.stale && t.wire.statuses == s.wire.statuses && t.nextCheck == s.nextCheck
      && (t.state != s.state ==> Awaited(s.state).Some? && t.state == NextWait(cfg, s))
      && NoNewFlight(s.requests, t.requests)
  {
    if Awaited(s.state).Some? && PhaseOf(s.requests, Awaited(s.state).value).Committed? {
      AdvanceKeeps(cfg, s);
    }
  }

  lemma TimerKeeps(cfg: Config, s: Session, alive: bool, now: int, orders: seq<StaleOrder>)
    requires s.fault.NoFault? && SessionInv(cfg, s)
    ensures var t := OnTimer(cfg, s, alive, now, orders);
      && t.fault.NoFault? && SessionInv(cfg, t)
      && |t.wire.statuses| - |s.wire.statuses| == t.stale - s.stale >= 0
      && (t.state != s.state ==> Awaited(s.state).Some? && t.state == NextWait(cfg, s))
      && (t.stale > s.stale ==> t.state.Done?)
      && NoNewFlight(s.requests, t.requests)
  {
    if alive {
      RequestQueueKeeps(cfg, s);
      var t := CheckRequestQueue(cfg, s);
      if ChecksStaleOrders(t, now) {
        StaleOrdersCounted(t.(nextCheck := now + cfg.checkFrequency), orders, |orders|);
      }
    }
  }

  // ----- the steps keep the invariant

  lemma LoginTextKeeps(cfg: Config, sys: System, m: Message, orders: seq<StaleOrder>)
    requires sys.session.fault.NoFault? && Inv(cfg, sys) && Legal(cfg, sys, Text(m, orders))
    requires Dispatch(m.envelope, cfg.allowUnknown, cfg.asserts) == Handled(TradeLogin)
    ensures Safe(cfg, Step(cfg, sys, Text(m, orders)))
  {
    LoginKeeps(cfg, sys.session.(wire := Answered(cfg, sys.session.wire, m)), m.envelope.headerStatus, m.uid);
  }

  lemma SubscribeTextKeeps(cfg: Config, sys: System, m: Message, orders: seq<StaleOrder>)
    requires sys.session.fault.NoFault? && Inv(cfg, sys) && Legal(cfg, sys, Text(m, orders))
    requires Dispatch(m.envelope, cfg.allowUnknown, cfg.asserts) == Handled(TradeSubscribe)
    ensures Safe(cfg, Step(cfg, sys, Text(m, orders)))
  {
    SubscribeKeeps(cfg, sys.session, m.success, m.envelope.channel);
    AccountMovesOn(cfg, sys.session);
  }

  lemma OrderListTextKeeps(cfg: Config, sys: System, m: Message, orders: seq<StaleOrder>)
    requires sys.session.fault.NoFault? && Inv(cfg, sys) && Legal(cfg, sys, Text(m, orders))
    requires Dispatch(m.envelope, cfg.allowUnknown, cfg.asserts) == Handled(TradeOrderList)
    ensures Safe(cfg, Step(cfg, sys, Text(m, orders)))
  {
    var s := sys.session;
    OrderListKeeps(cfg, s, m.decodable, orders);
    assert s.state.GetOpenOrders? && s.stale == 0;
    var next := Step(cfg, sys, Text(m, orders));
    assert next.session == OnOrderList(cfg, s.(wire := s.wire.(lists := s.wire.lists - 1)), m.decodable, orders);
    if next.session.fault.NoFault? {
      assert next.tally == sys.tally.(lists := sys.tally.lists + 1, asked := sys.tally.asked + |orders|);
    }
  }

  lemma OrderStatusTextKeeps(cfg: Config, sys: System, m: Message, orders: seq<StaleOrder>)
    requires sys.session.fault.NoFault? && Inv(cfg, sys) && Legal(cfg, sys, Text(m, orders))
    requires Dispatch(m.envelope, cfg.allowUnknown, cfg.asserts) == Handled(TradeOrderStatus)
    ensures Safe(cfg, Step(cfg, sys, Text(m, orders)))
  {
    OrderStatusKeeps(cfg, sys.session, m.decodable, m.requestId);
  }

  /** The messages that the session does not depend on. */
  predicate Unrelated(cfg: Config, m: Message) {
    match Dispatch(m.envelope, cfg.allowUnknown, cfg.asserts)
    case Handled(TradeLogin) => false
    case Handled(TradeSubscribe) => false
    case Handled(TradeOrderList) => false
    case Handled(TradeOrderStatus) => false
    case _ => true
  }

  lemma OtherTextKeeps(cfg: Config, sys: System, m: Message, orders: seq<StaleOrder>)
    requires sys.session.fault.NoFault? && Inv(cfg, sys) && Unrelated(cfg, m)
    ensures Safe(cfg, Step(cfg, sys, Text(m, orders)))
    ensures var next := Step(cfg, sys, Text(m, orders));
      next.session.fault.NoFault? ==> next == sys
  {
  }

  lemma TextKeeps(cfg: Config, sys: System, m: Message, orders: seq<StaleOrder>)
    requires sys.session.fault.NoFault? && Inv(cfg, sys) && Legal(cfg, sys, Text(m, orders))
    ensures Safe(cfg, Step(cfg, sys, Text(m, orders)))
  {
    match Dispatch(m.envelope, cfg.allowUnknown, cfg.asserts)
    case Handled(TradeLogin) => LoginTextKeeps(cfg, sys, m, orders);
    case Handled(TradeSubscribe) => SubscribeTextKeeps(cfg, sys, m, orders);
    case Handled(TradeOrderList) => OrderListTextKeeps(cfg, sys, m, orders);
    case Handled(TradeOrderStatus) => OrderStatusTextKeeps(cfg, sys, m, orders);
    case _ => OtherTextKeeps(cfg, sys, m, orders);
  }

  lemma TimerStepKeeps(cfg: Config, sys: System, alive: bool, now: int, orders: seq<StaleOrder>)
    requires sys.session.fault.NoFault? && Inv(cfg, sys)
    ensures Safe(cfg, Step(cfg, sys, Timer(alive, now, orders)))
  {
    TimerKeeps(cfg, sys.session, alive, now, orders);
    if Awaited(sys.session.state).Some? {
      AccountMovesOn(cfg, sys.session);
    }
  }

  lemma CheckPendingKeeps(cfg: Config, sys: System, k: Kind, allowed: bool)
    requires sys.session.fault.NoFault? && Inv(cfg, sys)
    ensures Inv(cfg, CheckPending(sys, k, allowed)) && CheckPending(sys, k, allowed).session.fault.NoFault?
  {
  }

  lemma RestTimerKeeps(cfg: Config, sys: System, alive: bool, b: bool, p: bool, t: bool)
    requires sys.session.fault.NoFault? && Inv(cfg, sys)
    ensures Safe(cfg, Step(cfg, sys, RestTimer(alive, b, p, t)))
  {
    CheckPendingKeeps(cfg, sys, BalancesKind, b);
    var one := CheckPending(sys, BalancesKind, b);
    CheckPendingKeeps(cfg, one, PositionsKind, p);
    CheckPendingKeeps(cfg, CheckPending(one, PositionsKind, p), TradesKind, t);
  }

  lemma CommitKeeps(r: Requests, h: Counts, k: Kind, n: nat)
    requires RepliesDue(r, h)
    ensures RepliesDue(WithPhase(r, k, Committed), WithCount(h, k, n))
    ensures forall j: Kind :: PhaseOf(WithPhase(r, k, Committed), j) == if j == k then Committed else PhaseOf(r, j)
  {
  }

  lemma RestReplyKeeps(cfg: Config, sys: System, k: Kind, response: RestResponse.Response)
    requires sys.session.fault.NoFault? && Inv(cfg, sys)
    ensures Safe(cfg, Step(cfg, sys, RestReply(k, response)))
  {
    match RestResponse.Process(response, cfg.asserts)
    case Aborted =>
    case Returned(_) =>
      var next := Step(cfg, sys, RestReply(k, response));
      assert next.session == sys.session.(requests := WithPhase(sys.session.requests, k, Committed));
      CommitKeeps(sys.session.requests, sys.http, k, CountOf(next.http, k));
      assert next.http == WithCount(sys.http, k, CountOf(next.http, k));
      assert next.tally == sys.tally && next.up == sys.up;
  }

  lemma StepKeeps(cfg: Config, sys: System, e: Event)
    requires Safe(cfg, sys) && Legal(cfg, sys, e)
    ensures Safe(cfg, Step(cfg, sys, e))
  {
    if sys.session.fault.NoFault? {
      match e
      case Text(m, orders) => TextKeeps(cfg, sys, m, orders);
      case Timer(alive, now, orders) => TimerStepKeeps(cfg, sys, alive, now, orders);
      case RestTimer(alive, b, p, t) => RestTimerKeeps(cfg, sys, alive, b, p, t);
      case RestReply(k, response) => RestReplyKeeps(cfg, sys, k, response);
      case _ =>
    }
  }

  // ----- main results

  lemma StepAtKeeps(cfg: Config, sys: System, events: seq<Event>, n: nat)
    requires n < |events| && LegalAt(cfg, sys, events, n) && Safe(cfg, After(cfg, sys, events, n))
    ensures Safe(cfg, After(cfg, sys, events, n + 1))
  {
    StepKeeps(cfg, After(cfg, sys, events, n), events[n]);
  }

  lemma RunKeeps(cfg: Config, sys: System, events: seq<Event>, n: nat)
    requires Safe(cfg, sys) && LegalRun(cfg, sys, events) && n <= |events|
    ensures Safe(cfg, After(cfg, sys, events, n))
  {
    for i := 0 to n
      invariant Safe(cfg, After(cfg, sys, events, i))
    {
      StepAtKeeps(cfg, sys, events, i);
    }
  }

  lemma InitIsSafe(cfg: Config)
    ensures Safe(cfg, INIT)
  {
  }

  /** For every run in which the exchange answers each request of a connection at most once: no assertion
      of the gateway fails, no strict check finds the download in another state, and no order status
      arrives while the counter is zero, also with rechecks that overlap. */
  lemma NoInternalFault(cfg: Config, events: seq<Event>, n: nat)
    requires LegalRun(cfg, INIT, events) && n <= |events|
    ensures !Internal(After(cfg, INIT, events, n).session.fault)
  {
    InitIsSafe(cfg);
    RunKeeps(cfg, INIT, events, n);
  }

  /** In every reachable state the counter equals the outstanding order status requests, exactly the
      obligation of the download state is open, and the three notions of being ready agree. */
  lemma ReachableStates(cfg: Config, events: seq<Event>, n: nat)
    requires LegalRun(cfg, INIT, events) && n <= |events|
    requires After(cfg, INIT, events, n).session.fault.NoFault?
    ensures var s := After(cfg, INIT, events, n).session; ObligationsOpen(cfg, s) && StatusAgrees(s)
  {
    InitIsSafe(cfg);
    RunKeeps(cfg, INIT, events, n);
  }

  /** A stream that is ready has had, since its login, exactly four subscribe replies and one order list, has
      consumed two committed REST requests and a third one if and only if trades are to be looked up, and has had
      an answer for every order status it asked for but those still on the wire. */
  lemma ReadyAccount(cfg: Config, events: seq<Event>, n: nat)
    requires LegalRun(cfg, INIT, events) && n <= |events|
    requires var s := After(cfg, INIT, events, n).session; s.fault.NoFault? && s.ready
    ensures var sys := After(cfg, INIT, events, n);
      && sys.tally.subscriptions == 4 && sys.tally.lists == 1
      && sys.tally.consumed == (if cfg.tradesLookback != 0 then 3 else 2)
      && sys.tally.statuses + |sys.session.wire.statuses| == sys.tally.asked
  {
    InitIsSafe(cfg);
    RunKeeps(cfg, INIT, events, n);
  }

  /** Router, handler and download together: a subscribe reply is for one of the four account channels, and
      finds the download in the very state that waits for it. */
  lemma SubscribeReplyFindsItsState(cfg: Config, events: seq<Event>, n: nat)
    requires LegalRun(cfg, INIT, events) && n < |events| && events[n].Text?
    requires Dispatch(events[n].message.envelope, cfg.allowUnknown, cfg.asserts) == Handled(TradeSubscribe)
    requires After(cfg, INIT, events, n).session.fault.NoFault?
    ensures var channel := events[n].message.envelope.channel; var st := After(cfg, INIT, events, n).session.state;
      match channel
      case Balances => st.SubscribeBalances?
      case Positions => st.SubscribePositions?
      case Orders => st.SubscribeOrders?
      case UserTrades => st.SubscribeTrades?
      case _ => false
  {
    InitIsSafe(cfg);
    RunKeeps(cfg, INIT, events, n);
    assert LegalAt(cfg, INIT, events, n);
    OneChannelAwaited(After(cfg, INIT, events, n).session.state, events[n].message.envelope.channel);
  }
}

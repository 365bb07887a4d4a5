/** The order stream as a state machine: login, download, recovery of stale orders, and the REST stream
    that serves its requests (src/roq/gate_futures/gateway/drop_copy.cpp, drop_copy.hpp, order_entry.cpp,
    request.hpp).

    `core::Download2` and `core::limit::Request` are libraries. Of the first it is assumed that beginning
    enters the first state, that a callback result of zero moves on at once and one waits for a check, and
    that a strict check needs the state it names. Of the second, that a request is requested, in flight
    and then committed, and that committing is unconditional. */
module OrderSession {
  import opened Common
  import opened TradeRouter
  import RestResponse

  datatype State =
    | Undefined
    | SubscribeBalances | GetBalances | SubscribePositions | GetPositions | SubscribeOrders
    | GetOpenOrders | GetStaleOrders | SubscribeTrades | GetTrades
    | Done

  function Next(s: State): State
    requires !s.Done?
  {
    match s
    case Undefined => SubscribeBalances
    case SubscribeBalances => GetBalances
    case GetBalances => SubscribePositions
    case SubscribePositions => GetPositions
    case GetPositions => SubscribeOrders
    case SubscribeOrders => GetOpenOrders
    case GetOpenOrders => GetStaleOrders
    case GetStaleOrders => SubscribeTrades
    case SubscribeTrades => GetTrades
    case GetTrades => Done
  }

  /** How many states are still to come. */
  function Left(s: State): nat {
    match s
    case Undefined => 10
    case SubscribeBalances => 9
    case GetBalances => 8
    case SubscribePositions => 7
    case GetPositions => 6
    case SubscribeOrders => 5
    case GetOpenOrders => 4
    case GetStaleOrders => 3
    case SubscribeTrades => 2
    case GetTrades => 1
    case Done => 0
  }

  datatype Connection = Unset | Disconnected | LoginSent | Downloading | Ready

  // ----- the requests that the REST stream serves

  datatype Kind = BalancesKind | PositionsKind | TradesKind

  datatype Phase = Idle | Requested | InFlight | Committed

  datatype Requests = Requests(balances: Phase, positions: Phase, trades: Phase)

  function PhaseOf(r: Requests, k: Kind): Phase {
    match k
    case BalancesKind => r.balances
    case PositionsKind => r.positions
    case TradesKind => r.trades
  }

  function WithPhase(r: Requests, k: Kind, p: Phase): Requests {
    match k
    case BalancesKind => r.(balances := p)
    case PositionsKind => r.(positions := p)
    case TradesKind => r.(trades := p)
  }

  // ----- what is sent and not yet answered

  datatype OrderId = OrderId(text: string)

  datatype StaleOrder = StaleOrder(clientOrderId: OrderId, externalOrderId: string, symbol: string)

  datatype Request =
    | LoginRequest
    | SubscribeRequest(channel: Channel)
    | OrderListRequest
    | OrderStatusRequest(order: StaleOrder)

  /** The requests of the current connection that have not been answered. */
  datatype Wire = Wire(logins: nat, subscriptions: multiset<Channel>, lists: nat, statuses: multiset<OrderId>)

  const SILENT := Wire(0, multiset{}, 0, multiset{})

  function Record(w: Wire, r: Request): Wire {
    match r
    case LoginRequest => w.(logins := w.logins + 1)
    case SubscribeRequest(channel) => w.(subscriptions := w.subscriptions + multiset{channel})
    case OrderListRequest => w.(lists := w.lists + 1)
    case OrderStatusRequest(order) => w.(statuses := w.statuses + multiset{order.clientOrderId})
  }

  // ----- the session

  /** Why the process ends. The first group is the doing of the exchange; the others are assertions and
      fatal branches of the gateway itself. */
  datatype Fault =
    | NoFault
    | LoginRejected | BadUserId | SubscribeRejected | BadMessage | BadOrder | BadResponse
    | WrongState | CounterUnderflow | AlreadyReady | NoUserId

  predicate Internal(f: Fault) {
    f.WrongState? || f.CounterUnderflow? || f.AlreadyReady? || f.NoUserId?
  }

  datatype Config = Config(tradesLookback: int, onRestart: int, checkFrequency: int, retryLogon: bool,
                           allowUnknown: bool, asserts: bool)

  datatype Session = Session(
    state: State, ready: bool, status: Connection, stale: nat, nextCheck: int, userId: int,
    requests: Requests, wire: Wire, fault: Fault)

  function Send(s: Session, r: Request): Session {
    s.(wire := Record(s.wire, r))
  }

  function SendSubscribe(s: Session, channel: Channel): Session {
    var t := Send(s, SubscribeRequest(channel));
    if s.userId == 0 then t.(fault := NoUserId) else t
  }

  function Ask(s: Session, k: Kind): Session {
    s.(requests := WithPhase(s.requests, k, Requested))
  }

  /** Whether the download waits in a state, once it has been entered. */
  predicate Waits(cfg: Config, s: Session, st: State) {
    match st
    case Undefined => false
    case GetStaleOrders => s.stale > 0
    case GetTrades => cfg.tradesLookback != 0
    case Done => false
    case _ => true
  }

  /** The download callback: what entering a state does. */
  function Download(cfg: Config, s: Session, st: State): Session {
    var d := s.(status := Downloading);
    match st
    case Undefined => s
    case SubscribeBalances => SendSubscribe(d, Balances)
    case GetBalances => Ask(d, BalancesKind)
    case SubscribePositions => SendSubscribe(d, Positions)
    case GetPositions => Ask(d, PositionsKind)
    case SubscribeOrders => SendSubscribe(d, Orders)
    case GetOpenOrders => Send(d, OrderListRequest)
    case GetStaleOrders => if s.stale > 0 then d else s
    case SubscribeTrades => SendSubscribe(d, UserTrades)
    case GetTrades => if cfg.tradesLookback != 0 then Ask(d, TradesKind) else s
    case Done => s.(status := Ready, ready := true, fault := if s.ready then AlreadyReady else s.fault)
  }

  /** Moves on to the next state in which the download waits. */
  function Advance(cfg: Config, s: Session): Session
    requires !s.state.Done?
    decreases Left(s.state)
  {
    var t := Download(cfg, s.(state := Next(s.state)), Next(s.state));
    assert t.state == Next(s.state);
    if t.state.Done? || Waits(cfg, t, t.state) then t else Advance(cfg, t)
  }

  function Check(cfg: Config, s: Session, st: State): Session
    requires !st.Done?
  {
    if s.state == st then Advance(cfg, s) else s.(fault := WrongState)
  }

  function CheckRelaxed(cfg: Config, s: Session, st: State): Session
    requires !st.Done?
  {
    if s.state == st then Advance(cfg, s) else s
  }

  function Begin(cfg: Config, s: Session): Session {
    Advance(cfg, s.(state := Undefined))
  }

  // ----- the handlers

  function OnReady(s: Session): Session {
    Send(s.(status := LoginSent), LoginRequest)
  }

  function OnDisconnected(s: Session): Session {
    s.(ready := false, status := Disconnected, state := Undefined, stale := 0)
  }

  function OnLogin(cfg: Config, s: Session, status: int, uid: int): Session {
    if status == 200 then
      if uid <= 0 then s.(fault := BadUserId) else Begin(cfg, s.(userId := uid))
    else if cfg.retryLogon then s
    else s.(fault := LoginRejected)
  }

  function OnSubscribe(cfg: Config, s: Session, success: bool, channel: Channel): Session {
    if !success then s.(fault := SubscribeRejected)
    else
      match channel
      case Balances => Check(cfg, s, SubscribeBalances)
      case Positions => Check(cfg, s, SubscribePositions)
      case Orders => Check(cfg, s, SubscribeOrders)
      case UserTrades => Check(cfg, s, SubscribeTrades)
      case _ => s
  }

  /** Asks for the status of the first `n` stale orders. */
  function CheckStaleOrders(s: Session, orders: seq<StaleOrder>, n: nat): Session
    requires n <= |orders|
  {
    if n == 0 then s
    else
      var t := CheckStaleOrders(s, orders, n - 1);
      Send(t.(stale := t.stale + 1), OrderStatusRequest(orders[n - 1]))
  }

  /** `decodable` says whether every order of the message has a known status. */
  function OnOrderList(cfg: Config, s: Session, decodable: bool, orders: seq<StaleOrder>): Session {
    if !decodable then s.(fault := BadOrder)
    else CheckRelaxed(cfg, CheckStaleOrders(s, orders, |orders|), GetOpenOrders)
  }

  function OnOrderStatus(cfg: Config, s: Session, decodable: bool): Session {
    if !decodable then s.(fault := BadOrder)
    else if s.stale == 0 then s.(fault := CounterUnderflow)
    else
      var t := s.(stale := s.stale - 1);
      if t.stale == 0 then CheckRelaxed(cfg, t, GetStaleOrders) else t
  }

  /** The request that a state waits for. */
  function Awaited(st: State): Option<Kind> {
    match st
    case GetBalances => Some(BalancesKind)
    case GetPositions => Some(PositionsKind)
    case GetTrades => Some(TradesKind)
    case _ => None
  }

  function CheckRequestQueue(cfg: Config, s: Session): Session {
    if Awaited(s.state).Some? && PhaseOf(s.requests, Awaited(s.state).value).Committed? then Check(cfg, s, s.state)
    else s
  }

  predicate ChecksStaleOrders(s: Session, now: int) {
    s.status.Ready? && s.nextCheck < now
  }

  function OnTimer(cfg: Config, s: Session, alive: bool, now: int, orders: seq<StaleOrder>): Session {
    if !alive then s
    else
      var t := CheckRequestQueue(cfg, s);
      if ChecksStaleOrders(t, now) then
        CheckStaleOrders(t.(nextCheck := now + cfg.checkFrequency), orders, |orders|)
      else t
  }

  /** A message with the parts of its body that the session depends on. */
  datatype Message = Message(envelope: Envelope, uid: int, success: bool, requestId: OrderId, decodable: bool)

  function Handle(cfg: Config, s: Session, h: Handler, m: Message, orders: seq<StaleOrder>): Session {
    match h
    case TradeLogin => OnLogin(cfg, s, m.envelope.headerStatus, m.uid)
    case TradeSubscribe => OnSubscribe(cfg, s, m.success, m.envelope.channel)
    case TradeOrderList => OnOrderList(cfg, s, m.decodable, orders)
    case TradeOrderStatus => OnOrderStatus(cfg, s, m.decodable)
    case _ => if m.decodable then s else s.(fault := BadOrder)
  }

  function OnText(cfg: Config, s: Session, m: Message, orders: seq<StaleOrder>): Session {
    match Dispatch(m.envelope, cfg.allowUnknown, cfg.asserts)
    case Handled(h) => Handle(cfg, s, h, m, orders)
    case NotHandled => s
    case Fatal => s.(fault := BadMessage)
  }

  // ----- the system: the session, its connection and the REST stream

  /** A number for each kind of request. */
  datatype Counts = Counts(balances: nat, positions: nat, trades: nat)

  function CountOf(h: Counts, k: Kind): nat {
    match k
    case BalancesKind => h.balances
    case PositionsKind => h.positions
    case TradesKind => h.trades
  }

  function WithCount(h: Counts, k: Kind, n: nat): Counts {
    match k
    case BalancesKind => h.(balances := n)
    case PositionsKind => h.(positions := n)
    case TradesKind => h.(trades := n)
  }

  /** What the session has had answered since its last login; a committed request counts when the download has
      consumed it. */
  datatype Tally = Tally(subscriptions: nat, lists: nat, consumed: nat, statuses: nat, asked: nat)

  /** `http` counts the requests that the REST connection has not answered. */
  datatype System = System(session: Session, up: bool, restReady: bool, http: Counts, firstTrades: bool, tally: Tally)

  datatype Event =
    | SocketReady
    | SocketDisconnected
    | Text(message: Message, orders: seq<StaleOrder>)
    | Timer(alive: bool, now: int, orders: seq<StaleOrder>)
    | RestConnected
    | RestDisconnected
    | RestTimer(alive: bool, balances: bool, positions: bool, trades: bool)
    | RestReply(kind: Kind, response: RestResponse.Response)

  const INIT := System(
    Session(Undefined, false, Unset, 0, 0, 0, Requests(Idle, Idle, Idle), SILENT, NoFault),
    false, false, Counts(0, 0, 0), true, Tally(0, 0, 0, 0, 0))

  /** The exchange answers requests of this connection, each at most once; what is not an answer may
      come at any time. */
  predicate Legal(cfg: Config, sys: System, e: Event) {
    match e
    case SocketReady => !sys.up
    case Text(m, _) =>
      sys.up &&
      (match Dispatch(m.envelope, cfg.allowUnknown, cfg.asserts)
       case Handled(TradeLogin) => sys.session.wire.logins > 0
       case Handled(TradeSubscribe) => m.envelope.channel in sys.session.wire.subscriptions
       case Handled(TradeOrderList) => sys.session.wire.lists > 0
       case Handled(TradeOrderStatus) => m.requestId in sys.session.wire.statuses
       case _ => true)
    case RestReply(k, _) => CountOf(sys.http, k) > 0
    case _ => true
  }

  /** Takes the answered request off the wire. */
  function Answered(cfg: Config, w: Wire, m: Message): Wire {
    match Dispatch(m.envelope, cfg.allowUnknown, cfg.asserts)
    case Handled(TradeLogin) => if w.logins > 0 then w.(logins := w.logins - 1) else w
    case Handled(TradeSubscribe) => w.(subscriptions := w.subscriptions - multiset{m.envelope.channel})
    case Handled(TradeOrderList) => if w.lists > 0 then w.(lists := w.lists - 1) else w
    case Handled(TradeOrderStatus) => w.(statuses := w.statuses - multiset{m.requestId})
    case _ => w
  }

  /** How many order statuses have been asked for between two states of the wire. */
  function NewStatuses(w: Wire, w': Wire): nat {
    if |w'.statuses| > |w.statuses| then |w'.statuses| - |w.statuses| else 0
  }

  function TallyText(cfg: Config, t: Tally, before: Session, after: Session, m: Message): Tally {
    match Dispatch(m.envelope, cfg.allowUnknown, cfg.asserts)
    case Handled(TradeLogin) => if after.state.Undefined? then t else Tally(0, 0, 0, 0, 0)
    case Handled(TradeSubscribe) => t.(subscriptions := t.subscriptions + 1)
    case Handled(TradeOrderList) => t.(lists := t.lists + 1, asked := t.asked + NewStatuses(before.wire, after.wire))
    case Handled(TradeOrderStatus) => t.(statuses := t.statuses + 1)
    case _ => t
  }

  function TallyTimer(t: Tally, before: Session, after: Session): Tally {
    t.(consumed := t.consumed + (if before.state != after.state then 1 else 0),
       asked := t.asked + NewStatuses(before.wire, after.wire))
  }

  /** The requests with what the REST connection has not answered. */
  datatype RestSide = RestSide(requests: Requests, http: Counts)

  /** The REST stream sends the request of one kind, if it has been asked for and the limits allow it. */
  function SendPending(r: RestSide, k: Kind, allowed: bool): RestSide {
    if allowed && PhaseOf(r.requests, k).Requested? then
      RestSide(WithPhase(r.requests, k, InFlight), WithCount(r.http, k, CountOf(r.http, k) + 1))
    else r
  }

  function CheckPending(sys: System, k: Kind, allowed: bool): System {
    var r := SendPending(RestSide(sys.session.requests, sys.http), k, allowed);
    sys.(session := sys.session.(requests := r.requests), http := r.http)
  }

  function OneLess(h: Counts, k: Kind): Counts {
    WithCount(h, k, if CountOf(h, k) > 0 then CountOf(h, k) - 1 else 0)
  }

  /** Trades have been downloaded once a response to their request has been processed to its end. */
  predicate TradesDone(k: Kind, calls: seq<RestResponse.Call>) {
    k.TradesKind? && RestResponse.SuccessHandler(true) in calls
  }

  function OnRestReply(cfg: Config, sys: System, k: Kind, response: RestResponse.Response): System {
    var answered := sys.(http := OneLess(sys.http, k));
    match RestResponse.Process(response, cfg.asserts)
    case Aborted => answered.(session := sys.session.(fault := BadResponse))
    case Returned(calls) =>
      answered.(session := sys.session.(requests := WithPhase(sys.session.requests, k, Committed)),
                firstTrades := sys.firstTrades && !TradesDone(k, calls))
  }

  /** How far back trades are looked up: until trades have been downloaded, the lookback on restart is used, if
      there is one. */
  function TradesLookback(cfg: Config, first: bool): int {
    if first && cfg.onRestart != 0 then cfg.onRestart else cfg.tradesLookback
  }

  /** The lookbacks of the requests for trades that an event makes the REST stream send. */
  function Sends(cfg: Config, sys: System, e: Event): seq<int> {
    match e
    case RestTimer(alive, _, _, trades) =>
      if sys.session.fault.NoFault? && alive && sys.restReady && trades && sys.session.requests.trades.Requested? then
        [TradesLookback(cfg, sys.firstTrades)]
      else []
    case _ => []
  }

  function Step(cfg: Config, sys: System, e: Event): System {
    if !sys.session.fault.NoFault? then sys
    else
      match e
      case SocketReady => sys.(session := OnReady(sys.session.(wire := SILENT)), up := true)
      case SocketDisconnected => sys.(session := OnDisconnected(sys.session).(wire := SILENT), up := false)
      case Text(m, orders) =>
        var before := sys.session.(wire := Answered(cfg, sys.session.wire, m));
        var after := OnText(cfg, before, m, orders);
        sys.(session := after, tally := TallyText(cfg, sys.tally, before, after, m))
      case Timer(alive, now, orders) =>
        var after := OnTimer(cfg, sys.session, alive, now, orders);
        sys.(session := after, tally := TallyTimer(sys.tally, sys.session, after))
      case RestConnected => sys.(restReady := true)
      case RestDisconnected => sys.(restReady := false)
      case RestTimer(alive, balances, positions, trades) =>
        if !alive || !sys.restReady then sys
        else
          var one := CheckPending(sys, BalancesKind, balances);
          CheckPending(CheckPending(one, PositionsKind, positions), TradesKind, trades)
      case RestReply(k, response) => OnRestReply(cfg, sys, k, response)
  }

  function After(cfg: Config, sys: System, events: seq<Event>, n: nat): System
    requires n <= |events|
  {
    if n == 0 then sys else Step(cfg, After(cfg, sys, events, n - 1), events[n - 1])
  }

  ghost predicate LegalAt(cfg: Config, sys: System, events: seq<Event>, n: nat)
    requires n < |events|
  {
    Legal(cfg, After(cfg, sys, events, n), events[n])
  }

  ghost predicate LegalRun(cfg: Config, sys: System, events: seq<Event>) {
    forall n :: 0 <= n < |events| ==> LegalAt(cfg, sys, events, n)
  }
}

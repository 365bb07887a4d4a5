/** The order stream as an object (src/roq/gate_futures/gateway/drop_copy.cpp, drop_copy.hpp). Every handler
    is proved against its function in `OrderSession`. */
module DropCopy {
  import opened TradeRouter
  import opened OrderSession

  /** The requests that the order stream and the REST stream of an account share. */
  class RequestQueue {
    var phases: Requests
    /** How often requests of each kind have been committed. */
    var commits: Counts

    constructor ()
      ensures phases == Requests(Idle, Idle, Idle) && commits == Counts(0, 0, 0)
    {
      phases, commits := Requests(Idle, Idle, Idle), Counts(0, 0, 0);
    }

    method Set(k: Kind, p: Phase)
      modifies this`phases
      ensures phases == WithPhase(old(phases), k, p)
    {
      match k
      case BalancesKind => phases := phases.(balances := p);
      case PositionsKind => phases := phases.(positions := p);
      case TradesKind => phases := phases.(trades := p);
    }

    method Commit(k: Kind)
      modifies this
      ensures phases == WithPhase(old(phases), k, Committed)
      ensures commits == WithCount(old(commits), k, CountOf(old(commits), k) + 1)
    {
      Set(k, Committed);
      commits := WithCount(commits, k, CountOf(commits, k) + 1);
    }
  }

  /** The connection: it remembers what has been sent on it and not been answered. */
  class Socket {
    var up: bool
    var wire: Wire

    constructor ()
      ensures !up && wire == SILENT
    {
      up, wire := false, SILENT;
    }

    /** A new connection starts with nothing to be answered. */
    method Open()
      modifies this
      ensures up && wire == SILENT
    {
      up, wire := true, SILENT;
    }

    /** What has not been answered when the connection ends never will be. */
    method Close()
      modifies this
      ensures !up && wire == SILENT
    {
      up, wire := false, SILENT;
    }

    /** A message arrives; an answer is taken off the wire. */
    method Receive(cfg: Config, m: Message)
      modifies this`wire
      ensures wire == Answered(cfg, old(wire), m)
    {
      match Dispatch(m.envelope, cfg.allowUnknown, cfg.asserts)
      case Handled(TradeLogin) =>
        if wire.logins > 0 {
          wire := wire.(logins := wire.logins - 1);
        }
      case Handled(TradeSubscribe) =>
        wire := wire.(subscriptions := wire.subscriptions - multiset{m.envelope.channel});
      case Handled(TradeOrderList) =>
        if wire.lists > 0 {
          wire := wire.(lists := wire.lists - 1);
        }
      case Handled(TradeOrderStatus) => wire := wire.(statuses := wire.statuses - multiset{m.requestId});
      case _ =>
    }

    method SendText(r: Request)
      modifies this`wire
      ensures wire == Record(old(wire), r)
    {
      match r
      case LoginRequest => wire := wire.(logins := wire.logins + 1);
      case SubscribeRequest(channel) => wire := wire.(subscriptions := wire.subscriptions + multiset{channel});
      case OrderListRequest => wire := wire.(lists := wire.lists + 1);
      case OrderStatusRequest(order) => wire := wire.(statuses := wire.statuses + multiset{order.clientOrderId});
    }
  }

  lemma AdvanceUnrolls(cfg: Config, s: Session)
    requires !s.state.Done?
    ensures var t := Download(cfg, s.(state := Next(s.state)), Next(s.state));
      && t.state == Next(s.state)
      && Advance(cfg, s) == if t.state.Done? || Waits(cfg, t, t.state) then t else Advance(cfg, t)
  {
  }

  class DropCopy {
    const cfg: Config
    const requests: RequestQueue
    const socket: Socket
    /** The state of the download. */
    var state: State
    var ready: bool
    var status: Connection
    var staleOrders: nat
    var nextCheck: int
    var userId: int
    /** Why the process has ended, if it has. */
    var fault: Fault

    constructor (cfg: Config, requests: RequestQueue)
      ensures this.cfg == cfg && this.requests == requests && fresh(socket) && !socket.up
      ensures Value() == Session(Undefined, false, Unset, 0, 0, 0, requests.phases, SILENT, NoFault)
    {
      this.cfg, this.requests := cfg, requests;
      socket := new Socket();
      state, ready, status, staleOrders, nextCheck := Undefined, false, Unset, 0, 0;
      userId, fault := 0, NoFault;
    }

    ghost function Value(): Session
      reads this, requests, socket
    {
      Session(state, ready, status, staleOrders, nextCheck, userId, requests.phases, socket.wire, fault)
    }

    method SubscribeTo(channel: Channel)
      modifies this`fault, socket`wire
      ensures Value() == SendSubscribe(old(Value()), channel)
    {
      if userId == 0 {
        fault := NoUserId;
      }
      socket.SendText(SubscribeRequest(channel));
    }

    // ----- the download

    /** Enters a state of the download; says whether to wait for an answer. */
    method OnDownload(st: State) returns (wait: bool)
      modifies this, requests`phases, socket`wire
      ensures Value() == Download(cfg, old(Value()), st)
      ensures wait == Waits(cfg, Value(), st)
    {
      match st
      case Undefined => return false;
      case SubscribeBalances =>
        status := Downloading;
        SubscribeTo(Balances);
        return true;
      case GetBalances =>
        status := Downloading;
        requests.Set(BalancesKind, Requested);
        return true;
      case SubscribePositions =>
        status := Downloading;
        SubscribeTo(Positions);
        return true;
      case GetPositions =>
        status := Downloading;
        requests.Set(PositionsKind, Requested);
        return true;
      case SubscribeOrders =>
        status := Downloading;
        SubscribeTo(Orders);
        return true;
      case GetOpenOrders =>
        status := Downloading;
        socket.SendText(OrderListRequest);
        return true;
      case GetStaleOrders =>
        if staleOrders > 0 {
          status := Downloading;
          return true;
        } else {
          return false;
        }
      case SubscribeTrades =>
        status := Downloading;
        SubscribeTo(UserTrades);
        return true;
      case GetTrades =>
        if cfg.tradesLookback != 0 {
          status := Downloading;
          requests.Set(TradesKind, Requested);
          return true;
        } else {
          return false;
        }
      case Done =>
        status := Ready;
        if ready {
          fault := AlreadyReady;
        }
        ready := true;
        return false;
    }

    /** Moves the download on until it waits, or is done. */
    method AdvanceDownload()
      requires !state.Done?
      modifies this, requests`phases, socket`wire
      ensures Value() == Advance(cfg, old(Value()))
    {
      var wait := false;
      while !state.Done? && !wait
        invariant if state.Done? || wait then Value() == Advance(cfg, old(Value()))
                  else Advance(cfg, Value()) == Advance(cfg, old(Value()))
        decreases Left(state), !wait
      {
        AdvanceUnrolls(cfg, Value());
        state := Next(state);
        wait := OnDownload(state);
      }
    }

    method CheckDownload(st: State)
      requires !st.Done?
      modifies this, requests`phases, socket`wire
      ensures Value() == Check(cfg, old(Value()), st)
    {
      if state == st {
        AdvanceDownload();
      } else {
        fault := WrongState;
      }
    }

    method CheckDownloadRelaxed(st: State)
      requires !st.Done?
      modifies this, requests`phases, socket`wire
      ensures Value() == CheckRelaxed(cfg, old(Value()), st)
    {
      if state == st {
        AdvanceDownload();
      }
    }

    method BeginDownload()
      modifies this, requests`phases, socket`wire
      ensures Value() == Begin(cfg, old(Value()))
    {
      state := Undefined;
      AdvanceDownload();
    }

    // ----- the handlers

    method OnSocketReady()
      modifies this, socket`wire
      ensures Value() == OnReady(old(Value()))
    {
      status := LoginSent;
      socket.SendText(LoginRequest);
    }

    method OnSocketDisconnected()
      modifies this
      ensures Value() == OnDisconnected(old(Value()))
    {
      ready := false;
      status := Disconnected;
      state := Undefined;
      staleOrders := 0;
    }

    method OnTradeLogin(headerStatus: int, uid: int)
      modifies this, requests`phases, socket`wire
      ensures Value() == OnLogin(cfg, old(Value()), headerStatus, uid)
    {
      if headerStatus == 200 {
        if uid <= 0 {
          fault := BadUserId;
          return;
        }
        userId := uid;
        BeginDownload();
      } else if !cfg.retryLogon {
        fault := LoginRejected;
      }
    }

    method OnTradeSubscribe(success: bool, channel: Channel)
      modifies this, requests`phases, socket`wire
      ensures Value() == OnSubscribe(cfg, old(Value()), success, channel)
    {
      if !success {
        fault := SubscribeRejected;
        return;
      }
      match channel
      case Balances => CheckDownload(SubscribeBalances);
      case Positions => CheckDownload(SubscribePositions);
      case Orders => CheckDownload(SubscribeOrders);
      case UserTrades => CheckDownload(SubscribeTrades);
      case _ =>
    }

    /** Asks for the status of every order that the dispatcher has lost sight of. */
    method AskForStaleOrders(orders: seq<StaleOrder>)
      modifies this`staleOrders, socket`wire
      ensures Value() == CheckStaleOrders(old(Value()), orders, |orders|)
    {
      for n := 0 to |orders|
        invariant Value() == CheckStaleOrders(old(Value()), orders, n)
      {
        staleOrders := staleOrders + 1;
        socket.SendText(OrderStatusRequest(orders[n]));
      }
    }

    method OnTradeOrderList(decodable: bool, orders: seq<StaleOrder>)
      modifies this, requests`phases, socket`wire
      ensures Value() == OnOrderList(cfg, old(Value()), decodable, orders)
    {
      if !decodable {
        fault := BadOrder;
        return;
      }
      AskForStaleOrders(orders);  // before moving on: the next state depends on the counter
      CheckDownloadRelaxed(GetOpenOrders);
    }

    method OnTradeOrderStatus(decodable: bool)
      modifies this, requests`phases, socket`wire
      ensures Value() == OnOrderStatus(cfg, old(Value()), decodable)
    {
      if !decodable {
        fault := BadOrder;
        return;
      }
      if staleOrders > 0 {
        staleOrders := staleOrders - 1;
      } else {
        fault := CounterUnderflow;
        return;
      }
      if staleOrders == 0 {
        CheckDownloadRelaxed(GetStaleOrders);
      }
    }

    method OnMessage(m: Message, orders: seq<StaleOrder>)
      modifies this, requests`phases, socket`wire
      ensures Value() == OnText(cfg, old(Value()), m, orders)
    {
      match Dispatch(m.envelope, cfg.allowUnknown, cfg.asserts)
      case Handled(TradeLogin) => OnTradeLogin(m.envelope.headerStatus, m.uid);
      case Handled(TradeSubscribe) => OnTradeSubscribe(m.success, m.envelope.channel);
      case Handled(TradeOrderList) => OnTradeOrderList(m.decodable, orders);
      case Handled(TradeOrderStatus) => OnTradeOrderStatus(m.decodable);
      case Handled(_) =>
        if !m.decodable {
          fault := BadOrder;
        }
      case NotHandled =>
      case Fatal => fault := BadMessage;
    }

    method CheckRequests()
      modifies this, requests`phases, socket`wire
      ensures Value() == CheckRequestQueue(cfg, old(Value()))
    {
      match state
      case GetBalances =>
        if requests.phases.balances.Committed? {
          CheckDownload(GetBalances);
        }
      case GetPositions =>
        if requests.phases.positions.Committed? {
          CheckDownload(GetPositions);
        }
      case GetTrades =>
        if requests.phases.trades.Committed? {
          CheckDownload(GetTrades);
        }
      case _ =>
    }

    method OnTimerEvent(alive: bool, now: int, orders: seq<StaleOrder>)
      modifies this, requests`phases, socket`wire
      ensures Value() == OnTimer(cfg, old(Value()), alive, now, orders)
    {
      if alive {
        CheckRequests();
        if status.Ready? {
          if nextCheck < now {
            nextCheck := now + cfg.checkFrequency;
            AskForStaleOrders(orders);
          }
        }
      }
    }
  }
}

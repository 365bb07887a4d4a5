/** Routing of the messages of the order stream (src/roq/gate_futures/protocol/json/trade_parser.cpp). */
module TradeRouter {
  datatype Channel =
    | UndefinedChannel | UnknownChannel
    | Tickers | Trades | BookTicker | OrderBookUpdate | Candlesticks
    | Login | Balances | Positions | Orders | UserTrades
    | OrderPlace | OrderAmend | OrderCancel | OrderCancelCp | OrderList | OrderStatus
    | FuturesSystem

  datatype EventType = UndefinedEvent | UnknownEvent | Subscribe | Update | Api

  /** The fields that decide where a message goes; a header status of zero means there is no header. */
  datatype Envelope = Envelope(error: int, headerStatus: int, headerChannel: Channel, headerEvent: EventType,
                               event: EventType, channel: Channel)

  datatype Handler =
    | TradeLogin | TradeSubscribe | TradeBalances | TradePositions | TradeOrders | TradeTrades
    | TradeOrderPlace | TradeOrderAmend | TradeOrderCancel | TradeOrderCancelCp
    | TradeOrderList | TradeOrderStatus | SystemNotice

  /** A message reaches one handler, is reported as not handled, or ends the process. */
  datatype Route = Handled(handler: Handler) | NotHandled | Fatal

  function RouteApi(channel: Channel, allowUnknown: bool): Route {
    match channel
    case UnknownChannel => if allowUnknown then NotHandled else Fatal
    case Login => Handled(TradeLogin)
    case OrderPlace => Handled(TradeOrderPlace)
    case OrderAmend => Handled(TradeOrderAmend)
    case OrderCancel => Handled(TradeOrderCancel)
    case OrderCancelCp => Handled(TradeOrderCancelCp)
    case OrderList => Handled(TradeOrderList)
    case OrderStatus => Handled(TradeOrderStatus)
    case _ => Fatal
  }

  function RouteSubscribe(channel: Channel, allowUnknown: bool): Route {
    match channel
    case UnknownChannel => if allowUnknown then NotHandled else Fatal
    case Balances => Handled(TradeSubscribe)
    case Positions => Handled(TradeSubscribe)
    case Orders => Handled(TradeSubscribe)
    case UserTrades => Handled(TradeSubscribe)
    case _ => Fatal
  }

  function RouteUpdate(channel: Channel): Route {
    match channel
    case Balances => Handled(TradeBalances)
    case Positions => Handled(TradePositions)
    case Orders => Handled(TradeOrders)
    case UserTrades => Handled(TradeTrades)
    case FuturesSystem => Handled(SystemNotice)
    case _ => Fatal
  }

  /** `asserts` says whether assertions are compiled in. */
  function Dispatch(m: Envelope, allowUnknown: bool, asserts: bool): Route {
    if m.error != 0 then Fatal
    else if m.headerStatus != 0 then
      if asserts && m.headerEvent != Api then Fatal else RouteApi(m.headerChannel, allowUnknown)
    else
      match m.event
      case UndefinedEvent => Fatal
      case UnknownEvent => if allowUnknown then NotHandled else Fatal
      case Subscribe => RouteSubscribe(m.channel, allowUnknown)
      case Update => RouteUpdate(m.channel)
      case Api => if allowUnknown then NotHandled else Fatal
  }
}

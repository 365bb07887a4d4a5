/** How what the exchange reports about an order becomes an update of that order, and what comes back of an
    order that was sent (src/roq/gate_futures/gateway/drop_copy.cpp, protocol/json/map.cpp). */
module OrderReport {
  import opened Common
  import opened Decimal
  import opened Json
  import opened Encoder
  import opened EncoderRoundTrip

  datatype FinishAs =
    | UndefinedInternal | UnknownInternal
    | Filled | Cancelled | Liquidated | FinishedIoc | AutoDeleveraged | ReduceOnly | PositionClose | Stp
    | New | Update | ReduceOut

  datatype ReportStatus = UndefinedStatus | UnknownStatus | Open | Finished

  datatype Tif = UndefinedTif | UnknownTif | GtcTif | IocTif | PocTif | FokTif

  /** An order as the exchange reports it; only some reports carry times in milliseconds. */
  datatype Report = Report(text: string, id: int, contract: string, size: int, left: int, price: real, fillPrice: real,
                           tif: Tif, finishAs: FinishAs, status: ReportStatus,
                           createTime: int, createTimeMs: Option<int>, updateTime: int, updateTimeMs: Option<int>)

  datatype OrderStatus = Working | Completed | Canceled | Rejected

  datatype UpdateType = Snapshot | Incremental

  datatype OrderUpdate = OrderUpdate(
    symbol: string, side: Side, limit: bool, timeInForce: Option<TimeInForce>, createTime: int, updateTime: int,
    externalOrderId: string, clientOrderId: string, status: OrderStatus,
    quantity: int, price: real, remaining: int, traded: int, average: Option<real>, updateType: UpdateType)

  /** An order of somebody else is skipped, and a status that makes no sense ends the process. */
  datatype Outcome = External | Fatal | Published(update: OrderUpdate)

  function ClientOrderId(text: string): string {
    if |text| >= 2 && text[..2] == "t-" then text[2..] else ""
  }

  function MapFinishAs(f: FinishAs): Option<OrderStatus> {
    match f
    case UndefinedInternal => None
    case UnknownInternal => None
    case Filled => Some(Completed)
    case Cancelled => Some(Canceled)
    case Liquidated => Some(Canceled)
    case FinishedIoc => Some(Completed)
    case AutoDeleveraged => Some(Canceled)
    case ReduceOnly => Some(Canceled)
    case PositionClose => Some(Canceled)
    case Stp => Some(Canceled)
    case New => Some(Working)
    case Update => Some(Working)
    case ReduceOut => Some(Working)
  }

  function StatusOf(f: FinishAs, s: ReportStatus): Option<OrderStatus> {
    if MapFinishAs(f).Some? then MapFinishAs(f) else if s.Open? then Some(Working) else None
  }

  function MapTif(t: Tif): Option<TimeInForce> {
    match t
    case UndefinedTif => None
    case UnknownTif => None
    case GtcTif => Some(Gtc)
    case FokTif => Some(Fok)
    case PocTif => Some(Gtc)
    case IocTif => Some(Ioc)
  }

  function TimeOf(time: int, ms: Option<int>): int {
    match ms
    case Some(t) => if t != 0 then t else time
    case None => time
  }

  function CreateOrderUpdate(r: Report, updateType: UpdateType): Outcome {
    var clientOrderId := ClientOrderId(r.text);
    if clientOrderId == "" then External
    else
      match StatusOf(r.finishAs, r.status)
      case None => Fatal
      case Some(status) =>
        var quantity, remaining := Abs(r.size), Abs(r.left);
        var traded := quantity - remaining;
        Published(OrderUpdate(
          r.contract, if r.size < 0 then Sell else Buy, updateType.Snapshot?, MapTif(r.tif),
          TimeOf(r.createTime, r.createTimeMs), TimeOf(r.updateTime, r.updateTimeMs),
          IntText(r.id), clientOrderId, status,
          quantity, r.price, remaining, traded, if traded > 0 then Some(r.fillPrice) else None, updateType))
  }

  /** An update is published exactly for orders with a client order id and a status that makes sense. */
  lemma PublishedIff(r: Report, updateType: UpdateType)
    ensures CreateOrderUpdate(r, updateType).Published?
      <==> (exists id: string :: id != "" && r.text == Prefixed(id))
           && (r.status.Open? || MapFinishAs(r.finishAs).Some?)
  {
    if |r.text| >= 2 && r.text[..2] == "t-" {
      assert r.text == Prefixed(r.text[2..]);
    }
    forall id: string | r.text == Prefixed(id)
      ensures ClientOrderId(r.text) == id
    {
      PrefixedIsClientId(id);
    }
  }

  lemma PrefixedIsClientId(id: string)
    ensures ClientOrderId(Prefixed(id)) == id
  {
    assert Prefixed(id)[..2] == "t-" && Prefixed(id)[2..] == id;
  }

  // ----- an order and its report

  function Pow10(p: nat): (n: nat)
    ensures n > 0
  {
    if p == 0 then 1 else 10 * Pow10(p - 1)
  }

  /** The exchange reports the order that it has read: the same contract and text, the same size in whole
      contracts, and no more left than there was. */
  ghost predicate Echoes(r: Report, p: Place) {
    && r.contract == p.contract && r.text == p.text
    && r.size * Pow10(p.size.places) == p.size.units
    && Abs(r.left) <= Abs(r.size)
  }

  lemma SignOfProduct(size: int, scale: nat, units: int)
    requires scale > 0 && size * scale == units
    ensures (size < 0 <==> units < 0) && (size > 0 <==> units > 0)
    ensures Abs(size) * scale == Abs(units)
  {
    if size > 0 {
      assert size * scale > 0;
    } else if size < 0 {
      assert -size * scale > 0;
    }
  }

  /** From the text that was written to the update that is published: an order of a positive quantity, with a
      request id, comes back with its symbol, side, quantity and id, and what remains and what has traded add
      up to the quantity. */
  lemma OrderComesBack(c: CreateOrder, tif: string, o: Order, ref: RefData, requestId: string, id: nat, time: int,
                       r: Report, updateType: UpdateType)
    requires TimeInForceOf(c) == Some(tif) && Plain(o.symbol) && Plain(requestId) && requestId != "" && c.quantity > 0
    requires var sent := ReadText(Write(PlaceDocument(c, tif, o, ref, requestId, id, time)));
      sent.Some? && ReadPlace(sent.value.params).Some? && Echoes(r, ReadPlace(sent.value.params).value)
    requires StatusOf(r.finishAs, r.status).Some?
    ensures CreateOrderUpdate(r, updateType).Published?
    ensures var u := CreateOrderUpdate(r, updateType).update;
      && u.symbol == o.symbol && u.side == c.side && u.clientOrderId == requestId
      && u.quantity * Pow10(ref.quantityPrecision) == c.quantity
      && u.quantity == u.remaining + u.traded && 0 <= u.traded <= u.quantity
  {
    PlaceReadsBack(c, tif, o, ref, requestId, id, time);
    PrefixedIsClientId(requestId);
    SignOfProduct(r.size, Pow10(ref.quantityPrecision), Signed(c.side, c.quantity));
  }

  lemma SignedScales(side: Side, contracts: nat, scale: nat)
    ensures Signed(side, contracts) * scale == Signed(side, contracts * scale)
    ensures Abs(Signed(side, contracts)) == contracts
  {
  }

  /** Every order for whole contracts can be reported back, with any part of it still to trade. */
  lemma EchoExists(c: CreateOrder, tif: string, o: Order, ref: RefData, requestId: string, id: nat, time: int,
                   contracts: nat, left: int, other: Report)
    returns (r: Report)
    requires TimeInForceOf(c) == Some(tif) && Plain(o.symbol) && Plain(requestId)
    requires c.quantity == contracts * Pow10(ref.quantityPrecision) && Abs(left) <= contracts
    ensures r.left == left && StatusOf(r.finishAs, r.status) == StatusOf(other.finishAs, other.status)
    ensures var sent := ReadText(Write(PlaceDocument(c, tif, o, ref, requestId, id, time)));
      sent.Some? && ReadPlace(sent.value.params).Some? && Echoes(r, ReadPlace(sent.value.params).value)
  {
    PlaceReadsBack(c, tif, o, ref, requestId, id, time);
    SignedScales(c.side, contracts, Pow10(ref.quantityPrecision));
    var sent := ReadPlace(ReadText(Write(PlaceDocument(c, tif, o, ref, requestId, id, time))).value.params).value;
    r := other.(contract := sent.contract, text := sent.text, size := Signed(c.side, contracts), left := left);
  }

  /** The side travels as the sign of the size: for quantities that are not negative it comes back if and only if
      the order buys or the quantity is not zero. */
  lemma SideComesBackIff(side: Side, quantity: nat, r: Report, updateType: UpdateType)
    requires r.size == Signed(side, quantity) && CreateOrderUpdate(r, updateType).Published?
    ensures CreateOrderUpdate(r, updateType).update.side == side <==> side.Buy? || quantity > 0
  {
  }

  // ----- asking for the status of an order

  /** A reply to an order status request. */
  datatype StatusReply = StatusReply(headerStatus: int, requestId: string, report: Report)

  /** An order that does not exist is rejected under the id that the reply echoes. */
  datatype StatusOutcome = RejectedOrder(clientOrderId: string) | Reported(outcome: Outcome)

  function OnOrderStatus(reply: StatusReply): StatusOutcome {
    if reply.headerStatus == 404 then RejectedOrder(reply.requestId)
    else Reported(CreateOrderUpdate(reply.report, Snapshot))
  }

  /** A reply that the order does not exist, when it echoes the id of the request that was written, rejects
      exactly the order that was asked about. */
  lemma RejectsTheOrderAskedAbout(clientOrderId: string, externalOrderId: string, settle: string, id: nat, time: int,
                                  reply: StatusReply)
    requires Plain(clientOrderId) && Plain(externalOrderId) && Plain(settle)
    requires var sent := ReadText(Write(StatusDocument(clientOrderId, externalOrderId, settle, id, time)));
      sent.Some? ==> reply.requestId == sent.value.reqId
    requires reply.headerStatus == 404
    ensures OnOrderStatus(reply) == RejectedOrder(clientOrderId)
  {
    StatusReadsBack(clientOrderId, externalOrderId, settle, id, time);
  }

  function OrderIdAsked(fs: Fields): string {
    match fs
    case Field(_, _, Field(_, Str(orderId), _)) => orderId
    case _ => ""
  }

  /** Ids of the exchange are numbers, so the prefix tells them from client order ids: the request names the
      order by its client order id if and only if no id of the exchange is known. */
  lemma AsksByClientIdIff(clientOrderId: string, externalId: Option<int>, settle: string)
    requires clientOrderId != ""
    ensures var external := if externalId.Some? then IntText(externalId.value) else "";
      ClientOrderId(OrderIdAsked(StatusParams(clientOrderId, external, settle)))
        == (if externalId.None? then clientOrderId else "")
  {
    PrefixedIsClientId(clientOrderId);
    if externalId.Some? {
      var text := IntText(externalId.value);
      DecimalReadsBack(externalId.value, 0);
      NumberChars(text);
      if |text| >= 2 {
        assert NumberChar(text[0]) && !NumberChar('t') && text[..2][0] == text[0];
      }
    }
  }

  // ----- the answers to order requests

  datatype Action = PlaceAction | AmendAction | CancelAction

  datatype RequestType = CreateOrderType | ModifyOrderType | CancelOrderType

  /** `update` is the order that comes with an acceptance. */
  datatype Response = Response(requestType: RequestType, accepted: bool, requestId: string, update: Option<OrderUpdate>)

  function TypeOf(a: Action): RequestType {
    match a
    case PlaceAction => CreateOrderType
    case AmendAction => ModifyOrderType
    case CancelAction => CancelOrderType
  }

  datatype ActionOutcome = NoResponse | ProcessEnds | Responded(response: Response)

  /** The response to an order request, if there is one: the first acknowledgement of a new order carries no
      text, and is passed over. */
  function OnAction(a: Action, headerStatus: int, requestId: string, report: Report): ActionOutcome {
    if headerStatus == 200 then
      if a.PlaceAction? && report.text == "" then NoResponse
      else
        match CreateOrderUpdate(report, Incremental)
        case External => NoResponse
        case Fatal => ProcessEnds
        case Published(u) => Responded(Response(TypeOf(a), true, requestId, Some(u)))
    else
      match a
      case PlaceAction => Responded(Response(CreateOrderType, false, requestId, None))
      case AmendAction => Responded(Response(CancelOrderType, false, requestId, None))
      case CancelAction => Responded(Response(CancelOrderType, false, requestId, None))
  }

  /** A response is meant to name the request it answers. It does, unless an amendment is rejected: that is
      reported as a cancellation. */
  lemma ResponseNamesItsRequestIff(a: Action, headerStatus: int, requestId: string, report: Report)
    requires OnAction(a, headerStatus, requestId, report).Responded?
    ensures OnAction(a, headerStatus, requestId, report).response.requestType == TypeOf(a)
      <==> headerStatus == 200 || !a.AmendAction?
    ensures OnAction(a, headerStatus, requestId, report).response.requestId == requestId
  {
  }
}

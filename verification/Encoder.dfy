/** The order requests as they are written into the reused buffer
    (src/roq/gate_futures/protocol/json/encoder.cpp and the order status request of gateway/drop_copy.cpp), and
    what a reader gets out of them again. Quantities and prices are counted in units of their precision. */
module Encoder {
  import opened Common
  import opened Decimal
  import opened Json

  datatype OrderType = Market | Limit | OtherType

  datatype TimeInForce = Gtc | Ioc | Fok | OtherTimeInForce

  datatype CreateOrder = CreateOrder(side: Side, orderType: OrderType, timeInForce: TimeInForce, postOnly: bool,
                                     reduceOnly: bool, quantity: int, price: Option<int>)

  /** A missing quantity or price stays as it is. */
  datatype ModifyOrder = ModifyOrder(quantity: Option<int>, price: Option<int>)

  datatype Order = Order(symbol: string, side: Side, clientOrderId: string)

  datatype RefData = RefData(quantityPrecision: nat, pricePrecision: nat)

  /** What all requests have in common. */
  datatype Head = Head(id: nat, time: int, channel: string, reqId: string)

  /** The quantity times the sign of the side. */
  function Signed(side: Side, quantity: int): int {
    if side.Buy? then quantity else -quantity
  }

  /** A market order has no price, and neither has an order without one. */
  function PriceOf(c: CreateOrder): int {
    if c.orderType.Market? || c.price.None? then 0 else c.price.value
  }

  /** The time in force that the exchange is told; some are not supported. */
  function TimeInForceOf(c: CreateOrder): Option<string> {
    if c.orderType.Market? then Some("ioc")
    else if c.postOnly then Some("poc")
    else
      match c.timeInForce
      case Gtc => Some("gtc")
      case Ioc => Some("ioc")
      case Fok => Some("fok")
      case OtherTimeInForce => None
  }

  function Prefixed(id: string): string {
    "t-" + id
  }

  // ----- the documents

  function Envelope(h: Head, params: Fields): Json {
    Obj(Field("id", Num(IntText(h.id)),
        Field("time", Num(IntText(h.time)),
        Field("channel", Str(h.channel),
        Field("event", Str("api"),
        Field("payload", Obj(Payload(h, params)), End))))))
  }

  function Payload(h: Head, params: Fields): Fields {
    Field("req_id", Str(h.reqId), Field("req_param", Obj(params), End))
  }

  function PlaceParams(c: CreateOrder, tif: string, symbol: string, ref: RefData, requestId: string): Fields {
    Field("contract", Str(symbol),
    Field("size", Num(DecimalText(Signed(c.side, c.quantity), ref.quantityPrecision)),
    Field("iceberg", Num(IntText(0)),
    Field("price", Str(DecimalText(PriceOf(c), ref.pricePrecision)), PlaceTail(c, tif, requestId)))))
  }

  function PlaceTail(c: CreateOrder, tif: string, requestId: string): Fields {
    Field("close", Bool(false),
    Field("reduce_only", Bool(c.reduceOnly),
    Field("tif", Str(tif),
    Field("text", Str(Prefixed(requestId)), End))))
  }

  function PlaceDocument(c: CreateOrder, tif: string, o: Order, ref: RefData, requestId: string, id: nat, time: int)
    : Json
  {
    Envelope(Head(id, time, PLACE, requestId), PlaceParams(c, tif, o.symbol, ref, requestId))
  }

  function AmendText(o: Order): Fields {
    Field("amend_text", Str(o.clientOrderId), End)
  }

  function AmendPrice(m: ModifyOrder, o: Order, ref: RefData): Fields {
    if m.price.Some? then Field("price", Str(DecimalText(m.price.value, ref.pricePrecision)), AmendText(o))
    else AmendText(o)
  }

  function AmendSize(m: ModifyOrder, o: Order, ref: RefData): Fields {
    if m.quantity.Some? then
      Field("size", Num(DecimalText(Signed(o.side, m.quantity.value), ref.quantityPrecision)), AmendPrice(m, o, ref))
    else AmendPrice(m, o, ref)
  }

  function AmendParams(m: ModifyOrder, o: Order, ref: RefData): Fields {
    Field("order_id", Str(Prefixed(o.clientOrderId)), AmendSize(m, o, ref))
  }

  function AmendDocument(m: ModifyOrder, o: Order, ref: RefData, requestId: string, id: nat, time: int): Json {
    Envelope(Head(id, time, AMEND, requestId), AmendParams(m, o, ref))
  }

  function CancelParams(o: Order): Fields {
    Field("order_id", Str(Prefixed(o.clientOrderId)), End)
  }

  function CancelDocument(o: Order, requestId: string, id: nat, time: int): Json {
    Envelope(Head(id, time, CANCEL, requestId), CancelParams(o))
  }

  function CancelAllParams(symbol: string): Fields {
    Field("contract", Str(symbol), End)
  }

  function CancelAllDocument(symbol: string, requestId: string, id: nat, time: int): Json {
    Envelope(Head(id, time, CANCEL_CP, requestId), CancelAllParams(symbol))
  }

  /** The order that a status request names: the prefix selects the client order id; without it the id of the
      exchange is meant. */
  function NamedOrder(clientOrderId: string, externalOrderId: string): string {
    if externalOrderId == "" then Prefixed(clientOrderId) else externalOrderId
  }

  function StatusParams(clientOrderId: string, externalOrderId: string, settle: string): Fields {
    Field("settle", Str(settle), Field("order_id", Str(NamedOrder(clientOrderId, externalOrderId)), End))
  }

  function StatusDocument(clientOrderId: string, externalOrderId: string, settle: string, id: nat, time: int): Json {
    Envelope(Head(id, time, STATUS, clientOrderId), StatusParams(clientOrderId, externalOrderId, settle))
  }

  const PLACE := "futures.order_place"
  const AMEND := "futures.order_amend"
  const CANCEL := "futures.order_cancel"
  const CANCEL_CP := "futures.order_cancel_cp"
  const STATUS := "futures.order_status"

  // ----- writing, piece by piece

  /** The text in front of the parameters. */
  function HeadText(h: Head): string {
    var a := WithKey(['{'], "id") + IntText(h.id) + [','];
    var b := WithKey(a, "time") + IntText(h.time) + [','];
    var c := WithString(WithKey(b, "channel"), h.channel) + [','];
    var d := WithString(WithKey(c, "event"), "api") + [','];
    var e := WithKey(d, "payload") + ['{'];
    var f := WithString(WithKey(e, "req_id"), h.reqId) + [','];
    WithKey(f, "req_param") + ['{']
  }

  lemma HeadTextIsPrefix(h: Head, params: Fields)
    ensures Write(Envelope(h, params)) == RenderFields(HeadText(h), params) + ['}'] + ['}'] + ['}']
  {
    var a := WithKey(['{'], "id") + IntText(h.id) + [','];
    var b := WithKey(a, "time") + IntText(h.time) + [','];
    var c := WithString(WithKey(b, "channel"), h.channel) + [','];
    var d := WithString(WithKey(c, "event"), "api") + [','];
    var e := WithKey(d, "payload") + ['{'];
    var f := WithString(WithKey(e, "req_id"), h.reqId) + [','];
    var f5 := Field("payload", Obj(Payload(h, params)), End);
    var f4 := Field("event", Str("api"), f5);
    var f3 := Field("channel", Str(h.channel), f4);
    var f2 := Field("time", Num(IntText(h.time)), f3);
    var f1 := Field("id", Num(IntText(h.id)), f2);
    assert "" + ['{'] == ['{'];
    assert RenderFields(['{'], f1) == RenderFields(a, f2);
    assert RenderFields(a, f2) == RenderFields(b, f3);
    assert RenderFields(b, f3) == RenderFields(c, f4);
    assert RenderFields(c, f4) == RenderFields(d, f5);
    assert RenderFields(d, f5) == RenderFields(e, Payload(h, params)) + ['}'];
    assert RenderFields(e, Payload(h, params)) == RenderFields(f, Field("req_param", Obj(params), End));
    assert RenderFields(f, Field("req_param", Obj(params), End)) == RenderFields(HeadText(h), params) + ['}'];
  }

  datatype Result = Sent | NotSupported

  class Encoder {
    /** The buffer that every message is written into anew. */
    var buffer: string

    method PutKey(key: string)
      modifies this
      ensures buffer == WithKey(old(buffer), key)
    {
      buffer := buffer + ['\"'] + key + ['\"'];
      buffer := buffer + [':'];
    }

    method Put(piece: string)
      modifies this
      ensures buffer == old(buffer) + piece
    {
      buffer := buffer + piece;
    }

    /** Writes a string; `rest` is what is still to be written after it. */
    method PutString(key: string, text: string, more: bool, ghost rest: Fields)
      requires more <==> rest.Field?
      modifies this
      ensures RenderFields(buffer, rest) == RenderFields(old(buffer), Field(key, Str(text), rest))
    {
      PutKey(key);
      buffer := buffer + ['\"'] + text + ['\"'];
      if more {
        Put([',']);
      }
    }

    method PutNumber(key: string, digits: string, more: bool, ghost rest: Fields)
      requires more <==> rest.Field?
      modifies this
      ensures RenderFields(buffer, rest) == RenderFields(old(buffer), Field(key, Num(digits), rest))
    {
      PutKey(key);
      Put(digits);
      if more {
        Put([',']);
      }
    }

    method PutBool(key: string, b: bool, more: bool, ghost rest: Fields)
      requires more <==> rest.Field?
      modifies this
      ensures RenderFields(buffer, rest) == RenderFields(old(buffer), Field(key, Bool(b), rest))
    {
      PutKey(key);
      Put(if b then TRUE else FALSE);
      if more {
        Put([',']);
      }
    }

    /** Clears the buffer and writes everything up to the parameters. */
    method PutHead(h: Head)
      modifies this
      ensures buffer == HeadText(h)
    {
      buffer := ['{'];
      PutKey("id");
      Put(IntText(h.id));
      Put([',']);
      PutKey("time");
      Put(IntText(h.time));
      Put([',']);
      PutKey("channel");
      buffer := buffer + ['\"'] + h.channel + ['\"'];
      Put([',']);
      PutKey("event");
      buffer := buffer + ['\"'] + "api" + ['\"'];
      Put([',']);
      PutKey("payload");
      Put(['{']);
      PutKey("req_id");
      buffer := buffer + ['\"'] + h.reqId + ['\"'];
      Put([',']);
      PutKey("req_param");
      Put(['{']);
    }

    method PutTail(ghost h: Head, ghost params: Fields)
      requires buffer == RenderFields(HeadText(h), params)
      modifies this
      ensures buffer == Write(Envelope(h, params))
    {
      HeadTextIsPrefix(h, params);
      Put(['}']);
      Put(['}']);
      Put(['}']);
    }

    method OrderPlace(c: CreateOrder, o: Order, ref: RefData, requestId: string, id: nat, time: int) returns (r: Result)
      modifies this
      ensures match TimeInForceOf(c)
        case None => r == NotSupported && buffer == ""
        case Some(tif) => r == Sent && buffer == Write(PlaceDocument(c, tif, o, ref, requestId, id, time))
    {
      buffer := "";
      var quantity := Signed(c.side, c.quantity);
      var price := PriceOf(c);
      var supported := TimeInForceOf(c);
      if supported.None? {
        return NotSupported;
      }
      var tif := supported.value;
      ghost var h := Head(id, time, PLACE, requestId);
      ghost var f8 := Field("text", Str(Prefixed(requestId)), End);
      ghost var f7 := Field("tif", Str(tif), f8);
      ghost var f6 := Field("reduce_only", Bool(c.reduceOnly), f7);
      ghost var f5 := Field("close", Bool(false), f6);
      ghost var f4 := Field("price", Str(DecimalText(price, ref.pricePrecision)), f5);
      ghost var f3 := Field("iceberg", Num(IntText(0)), f4);
      ghost var f2 := Field("size", Num(DecimalText(quantity, ref.quantityPrecision)), f3);
      PutHead(Head(id, time, PLACE, requestId));
      PutString("contract", o.symbol, true, f2);
      PutNumber("size", DecimalText(quantity, ref.quantityPrecision), true, f3);
      PutNumber("iceberg", IntText(0), true, f4);
      PutString("price", DecimalText(price, ref.pricePrecision), true, f5);
      PutBool("close", false, true, f6);
      PutBool("reduce_only", c.reduceOnly, true, f7);
      PutString("tif", tif, true, f8);
      PutString("text", Prefixed(requestId), false, End);
      PutTail(h, PlaceParams(c, tif, o.symbol, ref, requestId));
      return Sent;
    }

    method OrderAmend(m: ModifyOrder, o: Order, ref: RefData, requestId: string, id: nat, time: int)
      modifies this
      ensures buffer == Write(AmendDocument(m, o, ref, requestId, id, time))
    {
      PutHead(Head(id, time, AMEND, requestId));
      PutString("order_id", Prefixed(o.clientOrderId), true, AmendSize(m, o, ref));
      if m.quantity.Some? {
        var quantity := Signed(o.side, m.quantity.value);
        PutNumber("size", DecimalText(quantity, ref.quantityPrecision), true, AmendPrice(m, o, ref));
      }
      if m.price.Some? {
        PutString("price", DecimalText(m.price.value, ref.pricePrecision), true, AmendText(o));
      }
      PutString("amend_text", o.clientOrderId, false, End);
      PutTail(Head(id, time, AMEND, requestId), AmendParams(m, o, ref));
    }

    method OrderCancel(o: Order, requestId: string, id: nat, time: int)
      modifies this
      ensures buffer == Write(CancelDocument(o, requestId, id, time))
    {
      PutHead(Head(id, time, CANCEL, requestId));
      PutString("order_id", Prefixed(o.clientOrderId), false, End);
      PutTail(Head(id, time, CANCEL, requestId), CancelParams(o));
    }

    method OrderCancelCp(symbol: string, requestId: string, id: nat, time: int)
      modifies this
      ensures buffer == Write(CancelAllDocument(symbol, requestId, id, time))
    {
      PutHead(Head(id, time, CANCEL_CP, requestId));
      PutString("contract", symbol, false, End);
      PutTail(Head(id, time, CANCEL_CP, requestId), CancelAllParams(symbol));
    }

    method OrderStatus(clientOrderId: string, externalOrderId: string, settle: string, id: nat, time: int)
      modifies this
      ensures buffer == Write(StatusDocument(clientOrderId, externalOrderId, settle, id, time))
    {
      ghost var f2 := StatusParams(clientOrderId, externalOrderId, settle).rest;
      PutHead(Head(id, time, STATUS, clientOrderId));
      PutString("settle", settle, true, f2);
      if externalOrderId == "" {
        PutString("order_id", Prefixed(clientOrderId), false, End);
      } else {
        PutString("order_id", externalOrderId, false, End);
      }
      PutTail(Head(id, time, STATUS, clientOrderId), StatusParams(clientOrderId, externalOrderId, settle));
    }
  }
}

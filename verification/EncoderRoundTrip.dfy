/** Every order request reads back as the request it was written for, exactly when its strings need no escape. */
module EncoderRoundTrip {
  import opened Common
  import opened Decimal
  import opened Json
  import opened Encoder

  // ----- reading requests

  /** A request as the exchange reads it. */
  datatype Request = Request(id: int, time: int, channel: string, reqId: string, params: Fields)

  function WholeNumber(digits: string): Option<int> {
    match ReadNumber(digits)
    case Some(Number(n, 0)) => Some(n)
    case _ => None
  }

  function ReadRequest(v: Json): Option<Request> {
    match v
    case Obj(Field(k1, Num(id), Field(k2, Num(time), Field(k3, Str(channel), Field(k4, Str(event),
             Field(k5, Obj(Field(k6, Str(reqId), Field(k7, Obj(params), End))), End)))))) =>
      if k1 == "id" && k2 == "time" && k3 == "channel" && k4 == "event" && event == "api" && k5 == "payload"
         && k6 == "req_id" && k7 == "req_param" && WholeNumber(id).Some? && WholeNumber(time).Some?
      then Some(Request(WholeNumber(id).value, WholeNumber(time).value, channel, reqId, params))
      else None
    case _ => None
  }

  function ReadText(text: string): Option<Request> {
    match Read(text)
    case Document(v) => ReadRequest(v)
    case NotJson => None
  }

  datatype Place = Place(contract: string, size: Number, price: Number, reduceOnly: bool, tif: string, text: string)

  function ReadPlace(params: Fields): Option<Place> {
    match params
    case Field(k1, Str(contract), Field(k2, Num(size), Field(k3, Num(_), Field(k4, Str(price), Field(k5, Bool(_),
         Field(k6, Bool(reduceOnly), Field(k7, Str(tif), Field(k8, Str(text), End)))))))) =>
      if k1 == "contract" && k2 == "size" && k3 == "iceberg" && k4 == "price" && k5 == "close" && k6 == "reduce_only"
         && k7 == "tif" && k8 == "text" && ReadNumber(size).Some? && ReadNumber(price).Some?
      then Some(Place(contract, ReadNumber(size).value, ReadNumber(price).value, reduceOnly, tif, text))
      else None
    case _ => None
  }

  datatype Amend = Amend(orderId: string, size: Option<Number>, price: Option<Number>, text: string)

  function ReadAmendText(a: Amend, fs: Fields): Option<Amend> {
    match fs
    case Field(k, Str(text), End) => if k == "amend_text" then Some(a.(text := text)) else None
    case _ => None
  }

  function ReadAmendPrice(a: Amend, fs: Fields): Option<Amend> {
    match fs
    case Field(k, Str(price), rest) =>
      if k == "price" then
        if ReadNumber(price).Some? then ReadAmendText(a.(price := ReadNumber(price)), rest) else None
      else ReadAmendText(a, fs)
    case _ => None
  }

  function ReadAmend(params: Fields): Option<Amend> {
    match params
    case Field(k, Str(orderId), rest) =>
      var a := Amend(orderId, None, None, "");
      if k != "order_id" then None
      else
        (match rest
         case Field(k2, Num(size), rest2) =>
           if k2 == "size" && ReadNumber(size).Some? then ReadAmendPrice(a.(size := ReadNumber(size)), rest2) else None
         case _ => ReadAmendPrice(a, rest))
    case _ => None
  }

  /** The order that is to be cancelled. */
  function ReadCancel(params: Fields): Option<string> {
    match params
    case Field(k, Str(orderId), End) => if k == "order_id" then Some(orderId) else None
    case _ => None
  }

  /** The contract whose orders are to be cancelled. */
  function ReadCancelAll(params: Fields): Option<string> {
    match params
    case Field(k, Str(contract), End) => if k == "contract" then Some(contract) else None
    case _ => None
  }

  datatype Inquiry = Inquiry(settle: string, orderId: string)

  function ReadInquiry(params: Fields): Option<Inquiry> {
    match params
    case Field(k1, Str(settle), Field(k2, Str(orderId), End)) =>
      if k1 == "settle" && k2 == "order_id" then Some(Inquiry(settle, orderId)) else None
    case _ => None
  }

  // ----- which documents are well formed

  lemma PlainConcat(a: string, b: string)
    ensures Plain(a + b) <==> Plain(a) && Plain(b)
  {
    if Plain(a + b) {
      assert forall i :: 0 <= i < |a| ==> a[i] == (a + b)[i];
      assert forall i :: 0 <= i < |b| ==> b[i] == (a + b)[|a| + i];
    }
  }

  lemma PrefixedPlain(id: string)
    ensures Plain(Prefixed(id)) <==> Plain(id)
  {
    PlainConcat("t-", id);
  }

  lemma {:induction false} DigitsArePlain(s: string)
    requires IsNumber(s)
    ensures Plain(s)
  {
    NumberChars(s);
  }

  /** The keys that are written, and the other fixed strings. */
  lemma HeadKeysArePlain()
    ensures Plain("id") && Plain("time") && Plain("channel") && Plain("event") && Plain("api")
    ensures Plain("payload") && Plain("req_id") && Plain("req_param")
  {
  }

  lemma PlaceKeysArePlain()
    ensures Plain("contract") && Plain("size") && Plain("iceberg") && Plain("price")
    ensures Plain("close") && Plain("reduce_only") && Plain("tif") && Plain("text")
    ensures Plain("ioc") && Plain("poc") && Plain("gtc") && Plain("fok")
  {
  }

  lemma OtherKeysArePlain()
    ensures Plain("order_id") && Plain("amend_text") && Plain("settle")
  {
  }

  lemma ChannelsArePlain()
    ensures Plain(PLACE) && Plain(AMEND) && Plain(CANCEL) && Plain(CANCEL_CP) && Plain(STATUS)
  {
    OrderChannelsArePlain();
    CancelChannelsArePlain();
  }

  lemma OrderChannelsArePlain()
    ensures Plain(PLACE) && Plain(AMEND) && Plain(STATUS)
  {
  }

  lemma CancelChannelsArePlain()
    ensures Plain(CANCEL) && Plain(CANCEL_CP)
  {
  }

  lemma FieldWellFormedIff(key: string, value: Json, rest: Fields)
    requires Plain(key)
    ensures WellFormedFields(Field(key, value, rest)) <==> WellFormed(value) && WellFormedFields(rest)
  {
  }

  lemma EnvelopeWellFormedIff(h: Head, params: Fields)
    ensures WellFormed(Envelope(h, params)) <==> Plain(h.channel) && Plain(h.reqId) && WellFormedFields(params)
  {
    DecimalReadsBack(h.id, 0);
    DecimalReadsBack(h.time, 0);
    HeadKeysArePlain();
    var p2 := Field("req_param", Obj(params), End);
    var f5 := Field("payload", Obj(Payload(h, params)), End);
    var f4 := Field("event", Str("api"), f5);
    var f3 := Field("channel", Str(h.channel), f4);
    var f2 := Field("time", Num(IntText(h.time)), f3);
    FieldWellFormedIff("req_param", Obj(params), End);
    FieldWellFormedIff("req_id", Str(h.reqId), p2);
    FieldWellFormedIff("payload", Obj(Payload(h, params)), End);
    FieldWellFormedIff("event", Str("api"), f5);
    FieldWellFormedIff("channel", Str(h.channel), f4);
    FieldWellFormedIff("time", Num(IntText(h.time)), f3);
    FieldWellFormedIff("id", Num(IntText(h.id)), f2);
  }

  lemma PlaceTailWellFormedIff(c: CreateOrder, tif: string, requestId: string)
    requires TimeInForceOf(c) == Some(tif)
    ensures WellFormedFields(PlaceTail(c, tif, requestId)) <==> Plain(requestId)
  {
    PrefixedPlain(requestId);
    PlaceKeysArePlain();
    var f8 := Field("text", Str(Prefixed(requestId)), End);
    var f7 := Field("tif", Str(tif), f8);
    var f6 := Field("reduce_only", Bool(c.reduceOnly), f7);
    FieldWellFormedIff("text", Str(Prefixed(requestId)), End);
    FieldWellFormedIff("tif", Str(tif), f8);
    FieldWellFormedIff("reduce_only", Bool(c.reduceOnly), f7);
    FieldWellFormedIff("close", Bool(false), f6);
  }

  lemma PlaceWellFormedIff(c: CreateOrder, tif: string, symbol: string, ref: RefData, requestId: string)
    requires TimeInForceOf(c) == Some(tif)
    ensures WellFormedFields(PlaceParams(c, tif, symbol, ref, requestId)) <==> Plain(symbol) && Plain(requestId)
  {
    var size := DecimalText(Signed(c.side, c.quantity), ref.quantityPrecision);
    var price := DecimalText(PriceOf(c), ref.pricePrecision);
    DecimalReadsBack(Signed(c.side, c.quantity), ref.quantityPrecision);
    DecimalReadsBack(PriceOf(c), ref.pricePrecision);
    DecimalReadsBack(0, 0);
    DigitsArePlain(price);
    PlaceKeysArePlain();
    PlaceTailWellFormedIff(c, tif, requestId);
    var f5 := PlaceTail(c, tif, requestId);
    var f4 := Field("price", Str(price), f5);
    var f3 := Field("iceberg", Num(IntText(0)), f4);
    FieldWellFormedIff("price", Str(price), f5);
    FieldWellFormedIff("iceberg", Num(IntText(0)), f4);
    FieldWellFormedIff("size", Num(size), f3);
    FieldWellFormedIff("contract", Str(symbol), Field("size", Num(size), f3));
  }

  lemma AmendWellFormedIff(m: ModifyOrder, o: Order, ref: RefData)
    ensures WellFormedFields(AmendParams(m, o, ref)) <==> Plain(o.clientOrderId)
  {
    PrefixedPlain(o.clientOrderId);
    PlaceKeysArePlain();
    OtherKeysArePlain();
    FieldWellFormedIff("amend_text", Str(o.clientOrderId), End);
    if m.price.Some? {
      DecimalReadsBack(m.price.value, ref.pricePrecision);
      DigitsArePlain(DecimalText(m.price.value, ref.pricePrecision));
      FieldWellFormedIff("price", Str(DecimalText(m.price.value, ref.pricePrecision)), AmendText(o));
    }
    if m.quantity.Some? {
      DecimalReadsBack(Signed(o.side, m.quantity.value), ref.quantityPrecision);
      var size := DecimalText(Signed(o.side, m.quantity.value), ref.quantityPrecision);
      FieldWellFormedIff("size", Num(size), AmendPrice(m, o, ref));
    }
    FieldWellFormedIff("order_id", Str(Prefixed(o.clientOrderId)), AmendSize(m, o, ref));
  }

  lemma CancelWellFormedIff(o: Order)
    ensures WellFormedFields(CancelParams(o)) <==> Plain(o.clientOrderId)
  {
    PrefixedPlain(o.clientOrderId);
    OtherKeysArePlain();
    FieldWellFormedIff("order_id", Str(Prefixed(o.clientOrderId)), End);
  }

  lemma CancelAllWellFormedIff(symbol: string)
    ensures WellFormedFields(CancelAllParams(symbol)) <==> Plain(symbol)
  {
    PlaceKeysArePlain();
    FieldWellFormedIff("contract", Str(symbol), End);
  }

  lemma StatusWellFormedIff(clientOrderId: string, externalOrderId: string, settle: string)
    ensures WellFormedFields(StatusParams(clientOrderId, externalOrderId, settle))
      <==> Plain(settle) && Plain(NamedOrder(clientOrderId, externalOrderId))
  {
    OtherKeysArePlain();
    var id := NamedOrder(clientOrderId, externalOrderId);
    FieldWellFormedIff("order_id", Str(id), End);
    FieldWellFormedIff("settle", Str(settle), Field("order_id", Str(id), End));
  }

  // ----- the round trips

  lemma EnvelopeReads(h: Head, params: Fields)
    requires Plain(h.channel) && Plain(h.reqId) && WellFormedFields(params)
    ensures ReadText(Write(Envelope(h, params))) == Some(Request(h.id, h.time, h.channel, h.reqId, params))
  {
    EnvelopeWellFormedIff(h, params);
    ReadsBackIff(Envelope(h, params));
    EnvelopeIsRequest(h, params);
  }

  lemma EnvelopeIsRequest(h: Head, params: Fields)
    ensures ReadRequest(Envelope(h, params)) == Some(Request(h.id, h.time, h.channel, h.reqId, params))
  {
    DecimalReadsBack(h.id, 0);
    DecimalReadsBack(h.time, 0);
  }

  lemma PlaceParamsRead(c: CreateOrder, tif: string, symbol: string, ref: RefData, requestId: string)
    ensures ReadPlace(PlaceParams(c, tif, symbol, ref, requestId))
      == Some(Place(symbol, Number(Signed(c.side, c.quantity), ref.quantityPrecision),
                    Number(PriceOf(c), ref.pricePrecision), c.reduceOnly, tif, Prefixed(requestId)))
  {
    DecimalReadsBack(Signed(c.side, c.quantity), ref.quantityPrecision);
    DecimalReadsBack(PriceOf(c), ref.pricePrecision);
  }

  /** A new order reads back with its side as the sign of its size, and with every other parameter. */
  lemma PlaceReadsBack(c: CreateOrder, tif: string, o: Order, ref: RefData, requestId: string, id: nat, time: int)
    requires TimeInForceOf(c) == Some(tif) && Plain(o.symbol) && Plain(requestId)
    ensures var r := ReadText(Write(PlaceDocument(c, tif, o, ref, requestId, id, time)));
      && r.Some? && r.value.id == id && r.value.time == time && r.value.channel == PLACE && r.value.reqId == requestId
      && ReadPlace(r.value.params)
        == Some(Place(o.symbol, Number(Signed(c.side, c.quantity), ref.quantityPrecision),
                      Number(PriceOf(c), ref.pricePrecision), c.reduceOnly, tif, Prefixed(requestId)))
  {
    ChannelsArePlain();
    PlaceWellFormedIff(c, tif, o.symbol, ref, requestId);
    EnvelopeReads(Head(id, time, PLACE, requestId), PlaceParams(c, tif, o.symbol, ref, requestId));
    PlaceParamsRead(c, tif, o.symbol, ref, requestId);
  }

  function Scaled(n: Option<int>, precision: nat): Option<Number> {
    match n
    case Some(units) => Some(Number(units, precision))
    case None => None
  }

  function SignedQuantity(m: ModifyOrder, o: Order): Option<int> {
    match m.quantity
    case Some(q) => Some(Signed(o.side, q))
    case None => None
  }

  lemma AmendPriceReads(a: Amend, m: ModifyOrder, o: Order, ref: RefData)
    requires a.price.None?
    ensures ReadAmendPrice(a, AmendPrice(m, o, ref))
      == Some(a.(price := Scaled(m.price, ref.pricePrecision), text := o.clientOrderId))
  {
    assert |"price"| != |"amend_text"|;
    if m.price.Some? {
      DecimalReadsBack(m.price.value, ref.pricePrecision);
    }
  }

  lemma AmendParamsRead(m: ModifyOrder, o: Order, ref: RefData)
    ensures ReadAmend(AmendParams(m, o, ref))
      == Some(Amend(Prefixed(o.clientOrderId), Scaled(SignedQuantity(m, o), ref.quantityPrecision),
                    Scaled(m.price, ref.pricePrecision), o.clientOrderId))
  {
    var a := Amend(Prefixed(o.clientOrderId), None, None, "");
    if m.quantity.Some? {
      DecimalReadsBack(Signed(o.side, m.quantity.value), ref.quantityPrecision);
      AmendPriceReads(a.(size := Scaled(SignedQuantity(m, o), ref.quantityPrecision)), m, o, ref);
    } else {
      AmendPriceReads(a, m, o, ref);
    }
  }

  /** An amendment reads back in all its four shapes: a size and a price appear exactly when they were given. */
  lemma AmendReadsBack(m: ModifyOrder, o: Order, ref: RefData, requestId: string, id: nat, time: int)
    requires Plain(o.clientOrderId) && Plain(requestId)
    ensures var r := ReadText(Write(AmendDocument(m, o, ref, requestId, id, time)));
      && r.Some? && r.value.id == id && r.value.time == time && r.value.channel == AMEND && r.value.reqId == requestId
      && ReadAmend(r.value.params)
        == Some(Amend(Prefixed(o.clientOrderId), Scaled(SignedQuantity(m, o), ref.quantityPrecision),
                      Scaled(m.price, ref.pricePrecision), o.clientOrderId))
  {
    ChannelsArePlain();
    AmendWellFormedIff(m, o, ref);
    EnvelopeReads(Head(id, time, AMEND, requestId), AmendParams(m, o, ref));
    AmendParamsRead(m, o, ref);
  }

  /** A cancellation reads back with the order that it is about. */
  lemma CancelReadsBack(o: Order, requestId: string, id: nat, time: int)
    requires Plain(o.clientOrderId) && Plain(requestId)
    ensures var r := ReadText(Write(CancelDocument(o, requestId, id, time)));
      && r.Some? && r.value.id == id && r.value.time == time && r.value.channel == CANCEL && r.value.reqId == requestId
      && ReadCancel(r.value.params) == Some(Prefixed(o.clientOrderId))
  {
    ChannelsArePlain();
    CancelWellFormedIff(o);
    EnvelopeReads(Head(id, time, CANCEL, requestId), CancelParams(o));
  }

  /** A cancellation of all orders reads back with the symbol that it is about. */
  lemma CancelAllReadsBack(symbol: string, requestId: string, id: nat, time: int)
    requires Plain(symbol) && Plain(requestId)
    ensures var r := ReadText(Write(CancelAllDocument(symbol, requestId, id, time)));
      && r.Some? && r.value.id == id && r.value.time == time && r.value.channel == CANCEL_CP
      && r.value.reqId == requestId && ReadCancelAll(r.value.params) == Some(symbol)
  {
    ChannelsArePlain();
    CancelAllWellFormedIff(symbol);
    EnvelopeReads(Head(id, time, CANCEL_CP, requestId), CancelAllParams(symbol));
  }

  /** An order status request reads back with the settlement coin and the order that it asks about, and with the
      client order id as its request id. */
  lemma StatusReadsBack(clientOrderId: string, externalOrderId: string, settle: string, id: nat, time: int)
    requires Plain(clientOrderId) && Plain(externalOrderId) && Plain(settle)
    ensures var r := ReadText(Write(StatusDocument(clientOrderId, externalOrderId, settle, id, time)));
      && r.Some? && r.value.id == id && r.value.time == time && r.value.channel == STATUS
      && r.value.reqId == clientOrderId
      && ReadInquiry(r.value.params) == Some(Inquiry(settle, NamedOrder(clientOrderId, externalOrderId)))
  {
    ChannelsArePlain();
    PrefixedPlain(clientOrderId);
    StatusWellFormedIff(clientOrderId, externalOrderId, settle);
    EnvelopeReads(Head(id, time, STATUS, clientOrderId), StatusParams(clientOrderId, externalOrderId, settle));
  }

  /** The strings are written as they are. A new order is read back as the document it stands for if and only
      if its symbol and its request id hold no quote, backslash or control character. */
  lemma PlaceReadsBackIff(c: CreateOrder, tif: string, o: Order, ref: RefData, requestId: string, id: nat, time: int)
    requires TimeInForceOf(c) == Some(tif)
    ensures var v := PlaceDocument(c, tif, o, ref, requestId, id, time);
      Read(Write(v)) == Document(v) <==> Plain(o.symbol) && Plain(requestId)
  {
    ChannelsArePlain();
    PlaceWellFormedIff(c, tif, o.symbol, ref, requestId);
    EnvelopeWellFormedIff(Head(id, time, PLACE, requestId), PlaceParams(c, tif, o.symbol, ref, requestId));
    ReadsBackIff(PlaceDocument(c, tif, o, ref, requestId, id, time));
  }

  /** An amendment is read back as its document if and only if its two ids need no escape. */
  lemma AmendReadsBackIff(m: ModifyOrder, o: Order, ref: RefData, requestId: string, id: nat, time: int)
    ensures var v := AmendDocument(m, o, ref, requestId, id, time);
      Read(Write(v)) == Document(v) <==> Plain(o.clientOrderId) && Plain(requestId)
  {
    ChannelsArePlain();
    AmendWellFormedIff(m, o, ref);
    EnvelopeWellFormedIff(Head(id, time, AMEND, requestId), AmendParams(m, o, ref));
    ReadsBackIff(AmendDocument(m, o, ref, requestId, id, time));
  }

  /** A cancellation is read back as its document if and only if its two ids need no escape. */
  lemma CancelReadsBackIff(o: Order, requestId: string, id: nat, time: int)
    ensures var v := CancelDocument(o, requestId, id, time);
      Read(Write(v)) == Document(v) <==> Plain(o.clientOrderId) && Plain(requestId)
  {
    ChannelsArePlain();
    CancelWellFormedIff(o);
    EnvelopeWellFormedIff(Head(id, time, CANCEL, requestId), CancelParams(o));
    ReadsBackIff(CancelDocument(o, requestId, id, time));
  }

  lemma CancelAllReadsBackIff(symbol: string, requestId: string, id: nat, time: int)
    ensures var v := CancelAllDocument(symbol, requestId, id, time);
      Read(Write(v)) == Document(v) <==> Plain(symbol) && Plain(requestId)
  {
    ChannelsArePlain();
    CancelAllWellFormedIff(symbol);
    EnvelopeWellFormedIff(Head(id, time, CANCEL_CP, requestId), CancelAllParams(symbol));
    ReadsBackIff(CancelAllDocument(symbol, requestId, id, time));
  }

  /** An order status request is read back as its document if and only if its two ids and its settlement coin need
      no escape. */
  lemma StatusReadsBackIff(clientOrderId: string, externalOrderId: string, settle: string, id: nat, time: int)
    ensures var v := StatusDocument(clientOrderId, externalOrderId, settle, id, time);
      Read(Write(v)) == Document(v) <==> Plain(clientOrderId) && Plain(externalOrderId) && Plain(settle)
  {
    ChannelsArePlain();
    PrefixedPlain(clientOrderId);
    StatusWellFormedIff(clientOrderId, externalOrderId, settle);
    EnvelopeWellFormedIff(Head(id, time, STATUS, clientOrderId), StatusParams(clientOrderId, externalOrderId, settle));
    ReadsBackIff(StatusDocument(clientOrderId, externalOrderId, settle, id, time));
  }

  // ----- the text determines the request

  /** Everything that is sent to the exchange. */
  datatype OrderRequest =
    | PlaceOrder(c: CreateOrder, tif: string, o: Order, ref: RefData, requestId: string)
    | AmendOrder(m: ModifyOrder, o: Order, ref: RefData, requestId: string)
    | CancelOrder(o: Order, requestId: string)
    | CancelAllOrders(symbol: string, requestId: string)
    | AskStatus(clientOrderId: string, externalOrderId: string, settle: string)

  function TextOf(s: OrderRequest, id: nat, time: int): string {
    match s
    case PlaceOrder(c, tif, o, ref, requestId) => Write(PlaceDocument(c, tif, o, ref, requestId, id, time))
    case AmendOrder(m, o, ref, requestId) => Write(AmendDocument(m, o, ref, requestId, id, time))
    case CancelOrder(o, requestId) => Write(CancelDocument(o, requestId, id, time))
    case CancelAllOrders(symbol, requestId) => Write(CancelAllDocument(symbol, requestId, id, time))
    case AskStatus(clientOrderId, externalOrderId, settle) =>
      Write(StatusDocument(clientOrderId, externalOrderId, settle, id, time))
  }

  /** The request can be written, and its strings need no escape. */
  predicate Sendable(s: OrderRequest) {
    match s
    case PlaceOrder(c, tif, o, _, requestId) => TimeInForceOf(c) == Some(tif) && Plain(o.symbol) && Plain(requestId)
    case AmendOrder(_, o, _, requestId) => Plain(o.clientOrderId) && Plain(requestId)
    case CancelOrder(o, requestId) => Plain(o.clientOrderId) && Plain(requestId)
    case CancelAllOrders(symbol, requestId) => Plain(symbol) && Plain(requestId)
    case AskStatus(clientOrderId, externalOrderId, settle) =>
      Plain(clientOrderId) && Plain(externalOrderId) && Plain(settle)
  }

  function RequestIdOf(s: OrderRequest): string {
    match s
    case PlaceOrder(_, _, _, _, requestId) => requestId
    case AmendOrder(_, _, _, requestId) => requestId
    case CancelOrder(_, requestId) => requestId
    case CancelAllOrders(_, requestId) => requestId
    case AskStatus(clientOrderId, _, _) => clientOrderId
  }

  /** What the exchange is told to do. */
  datatype Meaning =
    | Placing(place: Place)
    | Amending(amend: Amend)
    | Cancelling(orderId: string)
    | CancellingAll(contract: string)
    | Asking(inquiry: Inquiry)

  function MeaningOf(s: OrderRequest): Meaning {
    match s
    case PlaceOrder(c, tif, o, ref, requestId) =>
      Placing(Place(o.symbol, Number(Signed(c.side, c.quantity), ref.quantityPrecision),
                    Number(PriceOf(c), ref.pricePrecision), c.reduceOnly, tif, Prefixed(requestId)))
    case AmendOrder(m, o, ref, _) =>
      Amending(Amend(Prefixed(o.clientOrderId), Scaled(SignedQuantity(m, o), ref.quantityPrecision),
                     Scaled(m.price, ref.pricePrecision), o.clientOrderId))
    case CancelOrder(o, _) => Cancelling(Prefixed(o.clientOrderId))
    case CancelAllOrders(symbol, _) => CancellingAll(symbol)
    case AskStatus(clientOrderId, externalOrderId, settle) =>
      Asking(Inquiry(settle, NamedOrder(clientOrderId, externalOrderId)))
  }

  /** A reader that knows all channels. */
  function ReadMeaning(r: Request): Option<Meaning> {
    if r.channel == PLACE then
      var p := ReadPlace(r.params); if p.Some? then Some(Placing(p.value)) else None
    else if r.channel == AMEND then
      var a := ReadAmend(r.params); if a.Some? then Some(Amending(a.value)) else None
    else if r.channel == CANCEL then
      var c := ReadCancel(r.params); if c.Some? then Some(Cancelling(c.value)) else None
    else if r.channel == CANCEL_CP then
      var c := ReadCancelAll(r.params); if c.Some? then Some(CancellingAll(c.value)) else None
    else if r.channel == STATUS then
      var i := ReadInquiry(r.params); if i.Some? then Some(Asking(i.value)) else None
    else None
  }

  lemma ChannelsDiffer()
    ensures PLACE != AMEND && CANCEL !in [PLACE, AMEND] && CANCEL_CP !in [PLACE, AMEND, CANCEL]
    ensures STATUS !in [PLACE, AMEND, CANCEL, CANCEL_CP]
  {
    assert PLACE[14] == 'p' && AMEND[14] == 'a' && CANCEL[14] == 'c' && CANCEL_CP[14] == 'c' && STATUS[14] == 's';
    assert |CANCEL| != |CANCEL_CP|;
  }

  /** Every request reads back: from its text alone a reader gets id, time, request id and what is to be done. */
  lemma RequestReadsBack(s: OrderRequest, id: nat, time: int)
    requires Sendable(s)
    ensures var r := ReadText(TextOf(s, id, time));
      && r.Some? && r.value.id == id && r.value.time == time && r.value.reqId == RequestIdOf(s)
      && ReadMeaning(r.value) == Some(MeaningOf(s))
  {
    ChannelsDiffer();
    match s
    case PlaceOrder(c, tif, o, ref, requestId) => PlaceReadsBack(c, tif, o, ref, requestId, id, time);
    case AmendOrder(m, o, ref, requestId) => AmendReadsBack(m, o, ref, requestId, id, time);
    case CancelOrder(o, requestId) => CancelReadsBack(o, requestId, id, time);
    case CancelAllOrders(symbol, requestId) => CancelAllReadsBack(symbol, requestId, id, time);
    case AskStatus(clientOrderId, externalOrderId, settle) =>
      StatusReadsBack(clientOrderId, externalOrderId, settle, id, time);
  }

  /** Encoding is injective, also across the five kinds of requests: the same text means the same. */
  lemma SameTextSameMeaning(s: OrderRequest, id: nat, time: int, s': OrderRequest, id': nat, time': int)
    requires Sendable(s) && Sendable(s') && TextOf(s, id, time) == TextOf(s', id', time')
    ensures id == id' && time == time' && RequestIdOf(s) == RequestIdOf(s') && MeaningOf(s) == MeaningOf(s')
  {
    RequestReadsBack(s, id, time);
    RequestReadsBack(s', id', time');
  }

  /** New orders with the same text agree in everything that is sent, and orders of positive quantity in their
      side, too. */
  lemma SameTextSameOrder(s: OrderRequest, id: nat, time: int, s': OrderRequest, id': nat, time': int)
    requires s.PlaceOrder? && Sendable(s) && s'.PlaceOrder? && Sendable(s')
    requires TextOf(s, id, time) == TextOf(s', id', time')
    ensures s.requestId == s'.requestId && s.o.symbol == s'.o.symbol && s.tif == s'.tif && s.ref == s'.ref
    ensures s.c.reduceOnly == s'.c.reduceOnly && PriceOf(s.c) == PriceOf(s'.c)
    ensures s.c.quantity > 0 && s'.c.quantity > 0 ==> s.c.side == s'.c.side && s.c.quantity == s'.c.quantity
  {
    SameTextSameMeaning(s, id, time, s', id', time');
  }
}

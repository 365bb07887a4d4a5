/** The market data subscription protocol: symbols arrive in batches, streams come and go, and every
    stream that is ready must be subscribed to its slice (src/roq/gate_futures/gateway/controller.cpp,
    gateway/market_data.cpp). */
module Subscription {
  import opened Common
  import opened Symbols

  datatype Channel = Tickers | Trades | BookTicker | OrderBookUpdate | Candlesticks

  datatype Interval = OneMinute

  /** A subscribe message as it is sent: some channels take all symbols at once, some take one. */
  datatype Message =
    | Join(channel: Channel, symbols: seq<Symbol>)
    | Book(symbol: Symbol, frequency: int, depth: int)
    | Candle(interval: Interval, symbol: Symbol)

  datatype Status = Undefined | Ready | Disconnected

  /** A market data stream; `session` is what has been sent since its connection became ready. */
  datatype Stream = Stream(status: Status, session: seq<Message>)

  datatype Config = Config(maxPerStream: nat, frequency: int, depth: int, lookback: int)

  /** `requested` is the queue of symbols whose candlestick history is to be fetched. */
  datatype System = System(symbols: seq<Symbol>, all: set<Symbol>, streams: seq<Stream>, requested: seq<Symbol>)

  function ForChannel(m: Message): Channel {
    match m
    case Join(channel, _) => channel
    case Book(_, _, _) => OrderBookUpdate
    case Candle(_, _) => Candlesticks
  }

  function SymbolsIn(m: Message): seq<Symbol> {
    match m
    case Join(_, symbols) => symbols
    case Book(symbol, _, _) => [symbol]
    case Candle(_, symbol) => [symbol]
  }

  // ----- what is sent

  function Books(cfg: Config, symbols: seq<Symbol>, n: nat): seq<Message>
    requires n <= |symbols|
  {
    if n == 0 then [] else Books(cfg, symbols, n - 1) + [Book(symbols[n - 1], cfg.frequency, cfg.depth)]
  }

  function Candles(symbols: seq<Symbol>, n: nat): seq<Message>
    requires n <= |symbols|
  {
    if n == 0 then [] else Candles(symbols, n - 1) + [Candle(OneMinute, symbols[n - 1])]
  }

  function Joins(symbols: seq<Symbol>): seq<Message> {
    [Join(Tickers, symbols), Join(Trades, symbols), Join(BookTicker, symbols)]
  }

  function CandleSymbols(cfg: Config, symbols: seq<Symbol>): seq<Symbol> {
    if cfg.lookback != 0 then symbols else []
  }

  function SubscribeMessages(cfg: Config, symbols: seq<Symbol>): seq<Message> {
    if symbols == [] then []
    else
      Joins(symbols) + Books(cfg, symbols, |symbols|)
      + Candles(CandleSymbols(cfg, symbols), |CandleSymbols(cfg, symbols)|)
  }

  /** The symbols that a sequence of messages subscribes on a channel, in order of sending. */
  ghost function Subscribed(messages: seq<Message>, c: Channel): seq<Symbol> {
    if messages == [] then []
    else
      var front, last := Subscribed(messages[..|messages| - 1], c), messages[|messages| - 1];
      if ForChannel(last) == c then front + SymbolsIn(last) else front
  }

  lemma SubscribedSnoc(messages: seq<Message>, m: Message, c: Channel)
    ensures Subscribed(messages + [m], c) == Subscribed(messages, c) + if ForChannel(m) == c then SymbolsIn(m) else []
  {
    assert (messages + [m])[..|messages|] == messages;
  }

  lemma {:induction false} SubscribedConcat(a: seq<Message>, b: seq<Message>, c: Channel)
    ensures Subscribed(a + b, c) == Subscribed(a, c) + Subscribed(b, c)
  {
    if b == [] {
      assert a + b == a;
    } else {
      var front, last := b[..|b| - 1], b[|b| - 1];
      SubscribedConcat(a, front, c);
      SubscribedSnoc(a + front, last, c);
      assert a + b == (a + front) + [last];
      if ForChannel(last) == c {
        ConcatAssociates(Subscribed(a, c), Subscribed(front, c), SymbolsIn(last));
      }
    }
  }

  lemma {:induction false} SubscribedBooks(cfg: Config, symbols: seq<Symbol>, n: nat, c: Channel)
    requires n <= |symbols|
    ensures Subscribed(Books(cfg, symbols, n), c) == if c.OrderBookUpdate? then symbols[..n] else []
  {
    if n > 0 {
      SubscribedBooks(cfg, symbols, n - 1, c);
      var front, last := Books(cfg, symbols, n - 1), Book(symbols[n - 1], cfg.frequency, cfg.depth);
      assert Books(cfg, symbols, n) == front + [last];
      SubscribedSnoc(front, last, c);
      assert symbols[..n] == symbols[..n - 1] + [symbols[n - 1]];
    }
  }

  lemma {:induction false} SubscribedCandles(symbols: seq<Symbol>, n: nat, c: Channel)
    requires n <= |symbols|
    ensures Subscribed(Candles(symbols, n), c) == if c.Candlesticks? then symbols[..n] else []
  {
    if n > 0 {
      SubscribedCandles(symbols, n - 1, c);
      var front, last := Candles(symbols, n - 1), Candle(OneMinute, symbols[n - 1]);
      assert Candles(symbols, n) == front + [last];
      SubscribedSnoc(front, last, c);
      assert symbols[..n] == symbols[..n - 1] + [symbols[n - 1]];
    }
  }

  lemma SubscribedJoins(symbols: seq<Symbol>, c: Channel)
    ensures Subscribed(Joins(symbols), c) == if c.OrderBookUpdate? || c.Candlesticks? then [] else symbols
  {
    var one, two := [Join(Tickers, symbols)], [Join(Tickers, symbols), Join(Trades, symbols)];
    SubscribedSnoc([], Join(Tickers, symbols), c);
    SubscribedSnoc(one, Join(Trades, symbols), c);
    SubscribedSnoc(two, Join(BookTicker, symbols), c);
    assert [] + [Join(Tickers, symbols)] == one && one + [Join(Trades, symbols)] == two;
    assert Joins(symbols) == two + [Join(BookTicker, symbols)];
  }

  /** What must be subscribed on a channel: candlesticks only when a lookback is configured. */
  function Expected(cfg: Config, symbols: seq<Symbol>, c: Channel): seq<Symbol> {
    if c.Candlesticks? then CandleSymbols(cfg, symbols) else symbols
  }

  lemma ExpectedConcat(cfg: Config, a: seq<Symbol>, b: seq<Symbol>, c: Channel)
    ensures Expected(cfg, a + b, c) == Expected(cfg, a, c) + Expected(cfg, b, c)
  {
  }

  /** One call of subscribe puts every symbol on every channel exactly once. */
  lemma SubscribesEachOnce(cfg: Config, symbols: seq<Symbol>, c: Channel)
    ensures Subscribed(SubscribeMessages(cfg, symbols), c) == Expected(cfg, symbols, c)
  {
    if symbols != [] {
      var candles := CandleSymbols(cfg, symbols);
      var j, b, k := Joins(symbols), Books(cfg, symbols, |symbols|), Candles(candles, |candles|);
      SubscribedConcat(j + b, k, c);
      SubscribedConcat(j, b, c);
      SubscribedJoins(symbols, c);
      SubscribedBooks(cfg, symbols, |symbols|, c);
      SubscribedCandles(candles, |candles|, c);
    }
  }

  // ----- the steps

  datatype Event =
    /** A client asks for symbols. */
    | Subscribe(names: seq<Symbol>)
    /** The contracts that are not discarded have been downloaded. */
    | Contracts(names: seq<Symbol>)
    | StreamReady(index: nat)
    | StreamDisconnected(index: nat)

  function Extended(cfg: Config, s: Stream, symbols: seq<Symbol>): Stream {
    if s.status.Ready? then s.(session := s.session + SubscribeMessages(cfg, symbols)) else s
  }

  function Grown(streams: seq<Stream>, size: nat): seq<Stream> {
    if |streams| < size then streams + seq(size - |streams|, _ => Stream(Undefined, [])) else streams
  }

  function NewHistory(cfg: Config, s: Stream, symbols: seq<Symbol>): seq<Symbol> {
    if s.status.Ready? then CandleSymbols(cfg, symbols) else []
  }

  /** The streams and the queue while the streams are being told, one after the other, where the new
      symbols start. */
  datatype Notice = Notice(streams: seq<Stream>, requested: seq<Symbol>)

  function NotifyStep(cfg: Config, n: Notice, symbols: seq<Symbol>, from: nat, i: nat): Notice
    requires from <= |symbols| && i < |n.streams|
  {
    var slice := Slice(symbols, cfg.maxPerStream, i, from);
    Notice(n.streams[i := Extended(cfg, n.streams[i], slice)], n.requested + NewHistory(cfg, n.streams[i], slice))
  }

  function NotifyUpTo(cfg: Config, n: Notice, symbols: seq<Symbol>, from: nat, k: nat): (after: Notice)
    requires from <= |symbols| && k <= |n.streams|
    ensures |after.streams| == |n.streams|
  {
    if k == 0 then n else NotifyStep(cfg, NotifyUpTo(cfg, n, symbols, from, k - 1), symbols, from, k - 1)
  }

  lemma {:induction false} NotifiedAt(cfg: Config, n: Notice, symbols: seq<Symbol>, from: nat, k: nat, i: nat)
    requires from <= |symbols| && k <= |n.streams| && i < |n.streams|
    ensures NotifyUpTo(cfg, n, symbols, from, k).streams[i]
      == if i < k then Extended(cfg, n.streams[i], Slice(symbols, cfg.maxPerStream, i, from)) else n.streams[i]
  {
    if k > 0 {
      NotifiedAt(cfg, n, symbols, from, k - 1, i);
      var before := NotifyUpTo(cfg, n, symbols, from, k - 1);
      var slice := Slice(symbols, cfg.maxPerStream, k - 1, from);
      assert NotifyUpTo(cfg, n, symbols, from, k).streams
        == before.streams[k - 1 := Extended(cfg, before.streams[k - 1], slice)];
      if i != k - 1 {
        assert NotifyUpTo(cfg, n, symbols, from, k).streams[i] == before.streams[i];
      }
    }
  }

  /** A stream queues exactly the symbols that it adds to its candlesticks channel. */
  lemma HistoryMatchesCandlesticks(cfg: Config, s: Stream, slice: seq<Symbol>)
    ensures Subscribed(Extended(cfg, s, slice).session, Candlesticks)
      == Subscribed(s.session, Candlesticks) + NewHistory(cfg, s, slice)
  {
    SubscribesEachOnce(cfg, slice, Candlesticks);
    SubscribedConcat(s.session, SubscribeMessages(cfg, slice), Candlesticks);
  }

  function SymbolsUpdate(cfg: Config, sys: System, batch: seq<Symbol>): System
    requires cfg.maxPerStream > 0
  {
    var symbols := sys.symbols + batch;
    var streams := Grown(sys.streams, Count(|symbols|, cfg.maxPerStream));
    var after := NotifyUpTo(cfg, Notice(streams, sys.requested), symbols, |sys.symbols|, |streams|);
    System(symbols, sys.all, after.streams, after.requested)
  }

  function Step(cfg: Config, sys: System, e: Event): System
    requires cfg.maxPerStream > 0
  {
    match e
    case Subscribe(names) =>
      var batch := Fresh(names, sys.all);
      SymbolsUpdate(cfg, sys.(all := sys.all + Elements(names)), batch)
    case Contracts(names) =>
      var batch := Fresh(names, sys.all);
      var next := sys.(all := sys.all + Elements(names));
      if batch == [] then next else SymbolsUpdate(cfg, next, batch)
    case StreamReady(i) =>
      if i >= |sys.streams| then sys
      else
        var slice := Slice(sys.symbols, cfg.maxPerStream, i, 0);
        sys.(streams := sys.streams[i := Stream(Ready, SubscribeMessages(cfg, slice))],
             requested := sys.requested + CandleSymbols(cfg, slice))
    case StreamDisconnected(i) =>
      if i >= |sys.streams| then sys
      else sys.(streams := sys.streams[i := sys.streams[i].(status := Disconnected)])
  }

  const INIT := System([], {}, [], [])

  function After(cfg: Config, events: seq<Event>, n: nat): System
    requires cfg.maxPerStream > 0 && n <= |events|
  {
    if n == 0 then INIT else Step(cfg, After(cfg, events, n - 1), events[n - 1])
  }

  // ----- the invariant

  ghost predicate InSync(cfg: Config, session: seq<Message>, slice: seq<Symbol>) {
    forall c: Channel :: Subscribed(session, c) == Expected(cfg, slice, c)
  }

  ghost predicate StreamsInSync(cfg: Config, sys: System)
    requires cfg.maxPerStream > 0
  {
    forall i :: 0 <= i < |sys.streams| && sys.streams[i].status.Ready? ==>
      InSync(cfg, sys.streams[i].session, Slice(sys.symbols, cfg.maxPerStream, i, 0))
  }

  ghost predicate KnownSymbols(sys: System) {
    Distinct(sys.symbols) && Elements(sys.symbols) == sys.all
  }

  ghost predicate Inv(cfg: Config, sys: System)
    requires cfg.maxPerStream > 0
  {
    && KnownSymbols(sys)
    && |sys.streams| == Count(|sys.symbols|, cfg.maxPerStream)
    && StreamsInSync(cfg, sys)
  }

  lemma ExtendInSync(cfg: Config, session: seq<Message>, slice: seq<Symbol>, tail: seq<Symbol>)
    requires InSync(cfg, session, slice)
    ensures InSync(cfg, session + SubscribeMessages(cfg, tail), slice + tail)
  {
    forall c: Channel
      ensures Subscribed(session + SubscribeMessages(cfg, tail), c) == Expected(cfg, slice + tail, c)
    {
      SubscribedConcat(session, SubscribeMessages(cfg, tail), c);
      SubscribesEachOnce(cfg, tail, c);
      ExpectedConcat(cfg, slice, tail, c);
    }
  }

  lemma StreamAfterUpdate(cfg: Config, sys: System, batch: seq<Symbol>, i: nat)
    requires cfg.maxPerStream > 0
    ensures var next := SymbolsUpdate(cfg, sys, batch);
      && |next.streams| == Max(|sys.streams|, Count(|next.symbols|, cfg.maxPerStream))
      && (i < |next.streams| ==>
            next.streams[i] == Extended(cfg, if i < |sys.streams| then sys.streams[i] else Stream(Undefined, []),
                                        Slice(next.symbols, cfg.maxPerStream, i, |sys.symbols|)))
  {
    var symbols := sys.symbols + batch;
    var streams := Grown(sys.streams, Count(|symbols|, cfg.maxPerStream));
    if i < |streams| {
      NotifiedAt(cfg, Notice(streams, sys.requested), symbols, |sys.symbols|, |streams|, i);
    }
  }

  lemma UpdateKeepsOneInSync(cfg: Config, sys: System, batch: seq<Symbol>, i: nat)
    requires cfg.maxPerStream > 0 && StreamsInSync(cfg, sys)
    requires i < |SymbolsUpdate(cfg, sys, batch).streams| && SymbolsUpdate(cfg, sys, batch).streams[i].status.Ready?
    ensures var next := SymbolsUpdate(cfg, sys, batch);
      InSync(cfg, next.streams[i].session, Slice(next.symbols, cfg.maxPerStream, i, 0))
  {
    // a stream that has just been created is not ready, so this one was there before
    StreamAfterUpdate(cfg, sys, batch, i);
    SliceGrows(sys.symbols, batch, cfg.maxPerStream, i);
    ExtendInSync(cfg, sys.streams[i].session, Slice(sys.symbols, cfg.maxPerStream, i, 0),
                 Slice(sys.symbols + batch, cfg.maxPerStream, i, |sys.symbols|));
  }

  lemma UpdateKeepsSync(cfg: Config, sys: System, batch: seq<Symbol>)
    requires cfg.maxPerStream > 0 && StreamsInSync(cfg, sys)
    ensures StreamsInSync(cfg, SymbolsUpdate(cfg, sys, batch))
  {
    var next := SymbolsUpdate(cfg, sys, batch);
    forall i | 0 <= i < |next.streams| && next.streams[i].status.Ready?
      ensures InSync(cfg, next.streams[i].session, Slice(next.symbols, cfg.maxPerStream, i, 0))
    {
      UpdateKeepsOneInSync(cfg, sys, batch, i);
    }
  }

  lemma FreshKeepsKnown(symbols: seq<Symbol>, all: set<Symbol>, names: seq<Symbol>)
    requires Distinct(symbols) && Elements(symbols) == all
    ensures Distinct(symbols + Fresh(names, all))
    ensures Elements(symbols + Fresh(names, all)) == all + Elements(names)
  {
    FreshIsNew(names, all);
    DistinctConcat(symbols, Fresh(names, all));
  }

  lemma StepKeepsInv(cfg: Config, sys: System, e: Event)
    requires cfg.maxPerStream > 0 && Inv(cfg, sys)
    ensures Inv(cfg, Step(cfg, sys, e))
  {
    match e
    case Subscribe(names) =>
      FreshKeepsKnown(sys.symbols, sys.all, names);
      BatchKeepsInv(cfg, sys, sys.all + Elements(names), Fresh(names, sys.all));
    case Contracts(names) =>
      FreshKeepsKnown(sys.symbols, sys.all, names);
      assert sys.symbols + [] == sys.symbols;
      BatchKeepsInv(cfg, sys, sys.all + Elements(names), Fresh(names, sys.all));
    case StreamReady(i) =>
      if i < |sys.streams| {
        var slice := Slice(sys.symbols, cfg.maxPerStream, i, 0);
        forall c: Channel
          ensures Subscribed(SubscribeMessages(cfg, slice), c) == Expected(cfg, slice, c)
        {
          SubscribesEachOnce(cfg, slice, c);
        }
      }
    case StreamDisconnected(_) =>
  }

  lemma BatchKeepsInv(cfg: Config, sys: System, all: set<Symbol>, batch: seq<Symbol>)
    requires cfg.maxPerStream > 0 && Inv(cfg, sys)
    requires Distinct(sys.symbols + batch) && Elements(sys.symbols + batch) == all
    ensures Inv(cfg, SymbolsUpdate(cfg, sys.(all := all), batch))
  {
    UpdateKeepsSync(cfg, sys.(all := all), batch);
    CountGrows(|sys.symbols|, |sys.symbols + batch|, cfg.maxPerStream);
  }

  lemma {:induction false} InvHolds(cfg: Config, events: seq<Event>, n: nat)
    requires cfg.maxPerStream > 0 && n <= |events|
    ensures Inv(cfg, After(cfg, events, n))
  {
    if n > 0 {
      InvHolds(cfg, events, n - 1);
      StepKeepsInv(cfg, After(cfg, events, n - 1), events[n - 1]);
    } else {
      assert Elements([]) == {};
    }
  }

  // ----- the main results

  /** In every interleaving of symbol batches, readiness and disconnects: a stream that is ready has
      subscribed in its current session exactly its slice, each symbol once and in order, on every
      channel (candlesticks only with a lookback). */
  lemma ReadyStreamSubscribesItsSlice(cfg: Config, events: seq<Event>, n: nat, i: nat, c: Channel)
    requires cfg.maxPerStream > 0 && n <= |events|
    requires i < |After(cfg, events, n).streams| && After(cfg, events, n).streams[i].status.Ready?
    ensures var sys := After(cfg, events, n);
      Subscribed(sys.streams[i].session, c) == Expected(cfg, Slice(sys.symbols, cfg.maxPerStream, i, 0), c)
  {
    InvHolds(cfg, events, n);
  }

  /** In every reachable state the slices of the streams, joined in index order, are the symbols; no
      slice is over the limit; there are as many streams as slices; and the symbols are the known
      names, whichever entry point brought them in, each once. */
  lemma StreamsCoverSymbols(cfg: Config, events: seq<Event>, n: nat)
    requires cfg.maxPerStream > 0 && n <= |events|
    ensures var sys := After(cfg, events, n);
      && Joined(sys.symbols, cfg.maxPerStream, |sys.streams|) == sys.symbols
      && (forall i: nat :: |Slice(sys.symbols, cfg.maxPerStream, i, 0)| <= cfg.maxPerStream)
      && |sys.symbols| <= |sys.streams| * cfg.maxPerStream < |sys.symbols| + cfg.maxPerStream
      && Distinct(sys.symbols) && Elements(sys.symbols) == sys.all
  {
    InvHolds(cfg, events, n);
    SlicesPartition(After(cfg, events, n).symbols, cfg.maxPerStream);
    CountIsCeiling(|After(cfg, events, n).symbols|, cfg.maxPerStream);
  }

  /** What the first `k` streams have subscribed on a channel, joined. */
  ghost function SubscribedByAll(streams: seq<Stream>, k: nat, c: Channel): seq<Symbol>
    requires k <= |streams|
  {
    if k == 0 then [] else SubscribedByAll(streams, k - 1, c) + Subscribed(streams[k - 1].session, c)
  }

  lemma {:induction false} AllReadyUpTo(cfg: Config, sys: System, k: nat, c: Channel)
    requires cfg.maxPerStream > 0 && Inv(cfg, sys) && k <= |sys.streams|
    requires forall i :: 0 <= i < k ==> sys.streams[i].status.Ready?
    ensures SubscribedByAll(sys.streams, k, c) == Expected(cfg, Joined(sys.symbols, cfg.maxPerStream, k), c)
  {
    if k > 0 {
      AllReadyUpTo(cfg, sys, k - 1, c);
      var slice := Slice(sys.symbols, cfg.maxPerStream, k - 1, 0);
      assert Subscribed(sys.streams[k - 1].session, c) == Expected(cfg, slice, c) by {
        assert InSync(cfg, sys.streams[k - 1].session, slice);
      }
      ExpectedConcat(cfg, Joined(sys.symbols, cfg.maxPerStream, k - 1), slice, c);
      assert Joined(sys.symbols, cfg.maxPerStream, k) == Joined(sys.symbols, cfg.maxPerStream, k - 1) + slice;
    }
  }

  /** Once every stream is ready, each known symbol is subscribed exactly once over all streams
      together: what they have subscribed, joined, is the symbol sequence, and that has no duplicates. */
  lemma AllReadyMeansEverySymbolOnce(cfg: Config, events: seq<Event>, n: nat, c: Channel)
    requires cfg.maxPerStream > 0 && n <= |events|
    requires forall i :: 0 <= i < |After(cfg, events, n).streams| ==> After(cfg, events, n).streams[i].status.Ready?
    ensures var sys := After(cfg, events, n);
      && SubscribedByAll(sys.streams, |sys.streams|, c) == Expected(cfg, sys.symbols, c)
      && Distinct(sys.symbols) && Elements(sys.symbols) == sys.all
  {
    InvHolds(cfg, events, n);
    StreamsCoverSymbols(cfg, events, n);
    AllReadyUpTo(cfg, After(cfg, events, n), |After(cfg, events, n).streams|, c);
  }

  /** Symbols are only ever appended and streams only ever added. */
  lemma NothingShrinks(cfg: Config, events: seq<Event>, n: nat)
    requires cfg.maxPerStream > 0 && n < |events|
    ensures After(cfg, events, n).symbols <= After(cfg, events, n + 1).symbols
    ensures |After(cfg, events, n).streams| <= |After(cfg, events, n + 1).streams|
    ensures After(cfg, events, n).all <= After(cfg, events, n + 1).all
  {
    StepShrinksNothing(cfg, After(cfg, events, n), events[n]);
  }

  lemma StepShrinksNothing(cfg: Config, sys: System, e: Event)
    requires cfg.maxPerStream > 0
    ensures sys.symbols <= Step(cfg, sys, e).symbols
    ensures |sys.streams| <= |Step(cfg, sys, e).streams|
    ensures sys.all <= Step(cfg, sys, e).all
  {
    match e
    case Subscribe(_) =>
    case Contracts(_) =>
    case StreamReady(_) =>
    case StreamDisconnected(_) =>
  }

  /** Asking again for symbols that are known sends nothing and changes nothing. */
  lemma KnownSymbolsChangeNothing(cfg: Config, events: seq<Event>, n: nat, names: seq<Symbol>, contracts: bool)
    requires cfg.maxPerStream > 0 && n <= |events|
    requires Elements(names) <= After(cfg, events, n).all
    ensures var sys := After(cfg, events, n);
      Step(cfg, sys, if contracts then Contracts(names) else Subscribe(names)) == sys
  {
    var sys := After(cfg, events, n);
    InvHolds(cfg, events, n);
    FreshIsNew(names, sys.all);
    NoElements(Fresh(names, sys.all));
    assert sys.all + Elements(names) == sys.all;
    assert sys.symbols + [] == sys.symbols;
    NothingNotified(cfg, Notice(sys.streams, sys.requested), sys.symbols, |sys.streams|);
  }

  lemma {:induction false} NothingNotified(cfg: Config, n: Notice, symbols: seq<Symbol>, k: nat)
    requires k <= |n.streams|
    ensures NotifyUpTo(cfg, n, symbols, |symbols|, k) == n
  {
    if k > 0 {
      NothingNotified(cfg, n, symbols, k - 1);
      NothingFromTheEnd(symbols, cfg.maxPerStream, k - 1);
      assert n.streams[k - 1].session + [] == n.streams[k - 1].session;
      assert n.requested + [] == n.requested;
    }
  }

  // ----- the history queue

  /** What a stream sends in a step: all of a session that the step begins, or what it adds to the session. */
  function SentBy(before: seq<Stream>, after: seq<Stream>, e: Event, i: nat): seq<Message>
    requires i < |after|
  {
    if e == StreamReady(i) || i >= |before| then after[i].session
    else if |before[i].session| <= |after[i].session| then after[i].session[|before[i].session|..]
    else []
  }

  ghost function CandlesBy(before: seq<Stream>, after: seq<Stream>, e: Event, i: nat): seq<Symbol>
    requires i < |after|
  {
    Subscribed(SentBy(before, after, e, i), Candlesticks)
  }

  /** The symbols that the first `k` streams subscribe on the candlesticks channel in a step, joined. */
  ghost function CandlesUpTo(before: seq<Stream>, after: seq<Stream>, e: Event, k: nat): seq<Symbol>
    requires k <= |after|
  {
    if k == 0 then [] else CandlesUpTo(before, after, e, k - 1) + CandlesBy(before, after, e, k - 1)
  }

  ghost function CandlesIn(cfg: Config, sys: System, e: Event): seq<Symbol>
    requires cfg.maxPerStream > 0
  {
    CandlesUpTo(sys.streams, Step(cfg, sys, e).streams, e, |Step(cfg, sys, e).streams|)
  }

  /** What the first `n` events have made all streams subscribe on the candlesticks channel, over all of their
      sessions and in the order of sending. */
  ghost function AllCandles(cfg: Config, events: seq<Event>, n: nat): seq<Symbol>
    requires cfg.maxPerStream > 0 && n <= |events|
  {
    if n == 0 then [] else AllCandles(cfg, events, n - 1) + CandlesIn(cfg, After(cfg, events, n - 1), events[n - 1])
  }

  /** All but stream `i` send nothing in the step. */
  ghost predicate OthersSilent(before: seq<Stream>, after: seq<Stream>, e: Event, i: nat) {
    forall j :: 0 <= j < |after| && j != i ==> CandlesBy(before, after, e, j) == []
  }

  lemma AppendNothing(a: seq<Symbol>)
    ensures a + [] == a && [] + a == a
  {
  }

  /** What has been sent so far is what stream `i` has sent, if it was its turn. */
  ghost predicate OneSent(before: seq<Stream>, after: seq<Stream>, e: Event, i: nat, k: nat)
    requires k <= |after|
  {
    CandlesUpTo(before, after, e, k) == if i < k then CandlesBy(before, after, e, i) else []
  }

  lemma OneSentStep(before: seq<Stream>, after: seq<Stream>, e: Event, i: nat, k: nat)
    requires k < |after| && OthersSilent(before, after, e, i) && OneSent(before, after, e, i, k)
    ensures OneSent(before, after, e, i, k + 1)
  {
    AppendNothing(CandlesUpTo(before, after, e, k));
    AppendNothing(CandlesBy(before, after, e, k));
  }

  lemma OneSentAtFirst(before: seq<Stream>, after: seq<Stream>, e: Event, i: nat)
    ensures OneSent(before, after, e, i, 0)
  {
  }

  lemma OneSends(before: seq<Stream>, after: seq<Stream>, e: Event, i: nat)
    requires OthersSilent(before, after, e, i)
    ensures OneSent(before, after, e, i, |after|)
  {
    OneSentAtFirst(before, after, e, i);
    for k := 0 to |after|
      invariant OneSent(before, after, e, i, k)
    {
      OneSentStep(before, after, e, i, k);
    }
  }

  lemma NothingAdded(session: seq<Message>)
    ensures Subscribed(session[|session|..], Candlesticks) == []
  {
  }

  lemma UnchangedSilent(before: seq<Stream>, after: seq<Stream>, e: Event, i: nat)
    requires |before| == |after|
    requires forall j :: 0 <= j < |after| && j != i ==> e != StreamReady(j) && after[j].session == before[j].session
    ensures OthersSilent(before, after, e, i)
  {
    forall j | 0 <= j < |after| && j != i
      ensures CandlesBy(before, after, e, j) == []
    {
      NothingAdded(before[j].session);
    }
  }

  lemma NotifiedSends(cfg: Config, s: Stream, slice: seq<Symbol>)
    ensures var session := Extended(cfg, s, slice).session;
      |s.session| <= |session| && Subscribed(session[|s.session|..], Candlesticks) == NewHistory(cfg, s, slice)
  {
    if s.status.Ready? {
      var more := SubscribeMessages(cfg, slice);
      assert (s.session + more)[|s.session|..] == more;
      SubscribesEachOnce(cfg, slice, Candlesticks);
    } else {
      NothingAdded(s.session);
    }
  }

  /** What a stream sends when it is told of new symbols is what it queues. */
  lemma UpdateSends(cfg: Config, sys: System, batch: seq<Symbol>, e: Event, i: nat)
    requires cfg.maxPerStream > 0 && !e.StreamReady? && i < |SymbolsUpdate(cfg, sys, batch).streams|
    ensures var next := SymbolsUpdate(cfg, sys, batch);
      var stream := if i < |sys.streams| then sys.streams[i] else Stream(Undefined, []);
      CandlesBy(sys.streams, next.streams, e, i)
        == NewHistory(cfg, stream, Slice(next.symbols, cfg.maxPerStream, i, |sys.symbols|))
  {
    StreamAfterUpdate(cfg, sys, batch, i);
    if i < |sys.streams| {
      var next := SymbolsUpdate(cfg, sys, batch);
      NotifiedSends(cfg, sys.streams[i], Slice(next.symbols, cfg.maxPerStream, i, |sys.symbols|));
    }
  }

  /** The queue after the first `k` streams have been told. */
  function QueueUpTo(cfg: Config, sys: System, batch: seq<Symbol>, k: nat): seq<Symbol>
    requires cfg.maxPerStream > 0 && k <= |Grown(sys.streams, Count(|sys.symbols + batch|, cfg.maxPerStream))|
  {
    var symbols := sys.symbols + batch;
    var streams := Grown(sys.streams, Count(|symbols|, cfg.maxPerStream));
    NotifyUpTo(cfg, Notice(streams, sys.requested), symbols, |sys.symbols|, k).requested
  }

  lemma QueueStep(cfg: Config, sys: System, batch: seq<Symbol>, e: Event, k: nat)
    requires cfg.maxPerStream > 0 && !e.StreamReady?
    requires k < |Grown(sys.streams, Count(|sys.symbols + batch|, cfg.maxPerStream))|
    ensures |SymbolsUpdate(cfg, sys, batch).streams|
      == |Grown(sys.streams, Count(|sys.symbols + batch|, cfg.maxPerStream))|
    ensures QueueUpTo(cfg, sys, batch, k + 1)
      == QueueUpTo(cfg, sys, batch, k) + CandlesBy(sys.streams, SymbolsUpdate(cfg, sys, batch).streams, e, k)
  {
    var symbols := sys.symbols + batch;
    var streams := Grown(sys.streams, Count(|symbols|, cfg.maxPerStream));
    NotifiedAt(cfg, Notice(streams, sys.requested), symbols, |sys.symbols|, k, k);
    UpdateSends(cfg, sys, batch, e, k);
  }

  /** What has been queued so far is what has been sent so far. */
  ghost predicate Queued(cfg: Config, sys: System, batch: seq<Symbol>, e: Event, k: nat)
    requires cfg.maxPerStream > 0
  {
    var streams := SymbolsUpdate(cfg, sys, batch).streams;
    && k <= |streams| == |Grown(sys.streams, Count(|sys.symbols + batch|, cfg.maxPerStream))|
    && QueueUpTo(cfg, sys, batch, k) == sys.requested + CandlesUpTo(sys.streams, streams, e, k)
  }

  lemma QueuedAtFirst(cfg: Config, sys: System, batch: seq<Symbol>, e: Event)
    requires cfg.maxPerStream > 0
    ensures Queued(cfg, sys, batch, e, 0)
  {
    AppendNothing(sys.requested);
  }

  lemma QueuedStep(cfg: Config, sys: System, batch: seq<Symbol>, e: Event, k: nat)
    requires cfg.maxPerStream > 0 && !e.StreamReady? && Queued(cfg, sys, batch, e, k)
    requires k < |SymbolsUpdate(cfg, sys, batch).streams|
    ensures Queued(cfg, sys, batch, e, k + 1)
  {
    var streams := SymbolsUpdate(cfg, sys, batch).streams;
    QueueStep(cfg, sys, batch, e, k);
    ConcatAssociates(sys.requested, CandlesUpTo(sys.streams, streams, e, k), CandlesBy(sys.streams, streams, e, k));
  }

  lemma BatchQueues(cfg: Config, sys: System, batch: seq<Symbol>, e: Event)
    requires cfg.maxPerStream > 0 && !e.StreamReady?
    ensures var next := SymbolsUpdate(cfg, sys, batch);
      next.requested == sys.requested + CandlesUpTo(sys.streams, next.streams, e, |next.streams|)
  {
    QueuedAtFirst(cfg, sys, batch, e);
    for k := 0 to |SymbolsUpdate(cfg, sys, batch).streams|
      invariant Queued(cfg, sys, batch, e, k)
    {
      QueuedStep(cfg, sys, batch, e, k);
    }
  }

  lemma ReadyQueues(cfg: Config, sys: System, i: nat)
    requires cfg.maxPerStream > 0
    ensures Step(cfg, sys, StreamReady(i)).requested == sys.requested + CandlesIn(cfg, sys, StreamReady(i))
  {
    var next := Step(cfg, sys, StreamReady(i));
    UnchangedSilent(sys.streams, next.streams, StreamReady(i), i);
    OneSends(sys.streams, next.streams, StreamReady(i), i);
    if i < |sys.streams| {
      SubscribesEachOnce(cfg, Slice(sys.symbols, cfg.maxPerStream, i, 0), Candlesticks);
    }
  }

  lemma SilentStep(cfg: Config, sys: System, e: Event)
    requires cfg.maxPerStream > 0 && !e.StreamReady? && Step(cfg, sys, e).requested == sys.requested
    requires var next := Step(cfg, sys, e);
      |sys.streams| == |next.streams| && forall j :: 0 <= j < |next.streams| ==>
        next.streams[j].session == sys.streams[j].session
    ensures CandlesIn(cfg, sys, e) == []
  {
    var next := Step(cfg, sys, e);
    UnchangedSilent(sys.streams, next.streams, e, |next.streams|);
    OneSends(sys.streams, next.streams, e, |next.streams|);
  }

  lemma StepQueues(cfg: Config, sys: System, e: Event)
    requires cfg.maxPerStream > 0
    ensures Step(cfg, sys, e).requested == sys.requested + CandlesIn(cfg, sys, e)
  {
    match e
    case Subscribe(names) => BatchQueues(cfg, sys.(all := sys.all + Elements(names)), Fresh(names, sys.all), e);
    case Contracts(names) =>
      if Fresh(names, sys.all) == [] {
        SilentStep(cfg, sys, e);
      } else {
        BatchQueues(cfg, sys.(all := sys.all + Elements(names)), Fresh(names, sys.all), e);
      }
    case StreamReady(i) => ReadyQueues(cfg, sys, i);
    case StreamDisconnected(_) => SilentStep(cfg, sys, e);
  }

  ghost predicate QueueAt(cfg: Config, events: seq<Event>, n: nat)
    requires cfg.maxPerStream > 0 && n <= |events|
  {
    After(cfg, events, n).requested == AllCandles(cfg, events, n)
  }

  lemma QueueAtStep(cfg: Config, events: seq<Event>, n: nat)
    requires cfg.maxPerStream > 0 && n < |events| && QueueAt(cfg, events, n)
    ensures QueueAt(cfg, events, n + 1)
  {
    StepQueues(cfg, After(cfg, events, n), events[n]);
  }

  /** In every run the queue of symbols whose history is to be fetched is what all streams have subscribed on the
      candlesticks channel, over all of their sessions and in the order of sending. */
  lemma QueueIsWhatWasSubscribed(cfg: Config, events: seq<Event>, n: nat)
    requires cfg.maxPerStream > 0 && n <= |events|
    ensures After(cfg, events, n).requested == AllCandles(cfg, events, n)
  {
    for i := 0 to n
      invariant QueueAt(cfg, events, i)
    {
      QueueAtStep(cfg, events, i);
    }
  }
}

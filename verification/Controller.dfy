/** The objects of the subscription protocol: the shared symbols, the market data streams and the
    controller that creates and notifies them (src/roq/gate_futures/gateway/controller.cpp,
    gateway/market_data.cpp). Every method is proved against a step of `Subscription`. */
module Controller {
  import opened Common
  import opened Symbols
  import opened Subscription

  /** The part of `Shared` that the streams have in common. */
  class Shared {
    const cfg: Config
    var symbols: seq<Symbol>
    var allSymbols: set<Symbol>
    var timeSeriesQueue: seq<Symbol>
    var settleCoins: map<Symbol, string>

    constructor (cfg: Config)
      ensures this.cfg == cfg && symbols == [] && allSymbols == {} && timeSeriesQueue == [] && settleCoins == map[]
    {
      this.cfg := cfg;
      symbols, allSymbols, timeSeriesQueue, settleCoins := [], {}, [], map[];
    }

    /** The settlement coin of a symbol; empty when the symbol is not known. */
    function GetSettleCoin(symbol: Symbol): string
      reads this
    {
      if symbol in settleCoins then settleCoins[symbol] else ""
    }

    /** Inserts the names into `allSymbols` one by one and collects those that were not there. */
    method InsertAll(names: seq<Symbol>) returns (batch: seq<Symbol>)
      modifies this`allSymbols
      ensures batch == Fresh(names, old(allSymbols))
      ensures allSymbols == old(allSymbols) + Elements(names)
    {
      batch := [];
      for n := 0 to |names|
        invariant batch == FreshUpTo(names, n, old(allSymbols))
        invariant allSymbols == old(allSymbols) + Elements(names[..n])
        invariant forall x :: x in allSymbols <==> x in old(allSymbols) || x in batch
      {
        assert names[..n + 1] == names[..n] + [names[n]];
        if names[n] !in allSymbols {
          allSymbols := allSymbols + {names[n]};
          batch := batch + [names[n]];
        }
      }
      assert names[..|names|] == names;
    }
  }

  class MarketData {
    const shared: Shared
    const index: nat
    var status: Status
    /** What the current connection has sent. */
    var session: seq<Message>

    constructor (shared: Shared, index: nat)
      ensures this.shared == shared && this.index == index && Value() == Stream(Undefined, [])
    {
      this.shared, this.index := shared, index;
      status, session := Undefined, [];
    }

    ghost function Value(): Stream
      reads this
    {
      Stream(status, session)
    }

    /** The channels that take all symbols in one message. */
    method SubscribeJoin(channel: Channel, symbols: seq<Symbol>)
      modifies this`session
      ensures session == old(session) + [Join(channel, symbols)]
    {
      session := session + [Join(channel, symbols)];
    }

    method SubscribeBooks(symbols: seq<Symbol>)
      modifies this`session
      ensures session == old(session) + Books(shared.cfg, symbols, |symbols|)
    {
      for n := 0 to |symbols|
        invariant session == old(session) + Books(shared.cfg, symbols, n)
      {
        session := session + [Book(symbols[n], shared.cfg.frequency, shared.cfg.depth)];
      }
    }

    method SubscribeCandles(symbols: seq<Symbol>)
      modifies this`session, shared`timeSeriesQueue
      ensures session == old(session) + Candles(symbols, |symbols|)
      ensures shared.timeSeriesQueue == old(shared.timeSeriesQueue) + symbols
    {
      for n := 0 to |symbols|
        invariant session == old(session) + Candles(symbols, n)
        invariant shared.timeSeriesQueue == old(shared.timeSeriesQueue) + symbols[..n]
      {
        session := session + [Candle(OneMinute, symbols[n])];
        shared.timeSeriesQueue := shared.timeSeriesQueue + [symbols[n]];
      }
    }

    method SubscribeSymbols(symbols: seq<Symbol>)
      modifies this`session, shared`timeSeriesQueue
      ensures session == old(session) + SubscribeMessages(shared.cfg, symbols)
      ensures shared.timeSeriesQueue == old(shared.timeSeriesQueue) + CandleSymbols(shared.cfg, symbols)
    {
      if symbols == [] {
        return;
      }
      SubscribeJoin(Tickers, symbols);
      SubscribeJoin(Trades, symbols);
      SubscribeJoin(BookTicker, symbols);
      assert session == old(session) + Joins(symbols);
      SubscribeBooks(symbols);
      if shared.cfg.lookback != 0 {
        SubscribeCandles(symbols);
      }
    }

    method Subscribe(startFrom: nat)
      requires shared.cfg.maxPerStream > 0 && startFrom <= |shared.symbols|
      modifies this`session, shared`timeSeriesQueue
      ensures var slice := Slice(shared.symbols, shared.cfg.maxPerStream, index, startFrom);
        && Value() == Extended(shared.cfg, old(Value()), slice)
        && shared.timeSeriesQueue
          == old(shared.timeSeriesQueue) + NewHistory(shared.cfg, old(Value()), slice)
    {
      if status.Ready? {
        SubscribeSymbols(Slice(shared.symbols, shared.cfg.maxPerStream, index, startFrom));
      }
    }

    /** A new connection is ready: its session starts here. */
    method OnReady()
      requires shared.cfg.maxPerStream > 0
      modifies this`status, this`session, shared`timeSeriesQueue
      ensures var slice := Slice(shared.symbols, shared.cfg.maxPerStream, index, 0);
        && Value() == Stream(Ready, SubscribeMessages(shared.cfg, slice))
        && shared.timeSeriesQueue == old(shared.timeSeriesQueue) + CandleSymbols(shared.cfg, slice)
    {
      session := [];
      status := Ready;
      Subscribe(0);
    }

    method OnDisconnected()
      modifies this`status
      ensures status == Disconnected
    {
      status := Disconnected;
    }
  }

  class Controller {
    const shared: Shared
    var marketData: seq<MarketData>

    ghost predicate Valid()
      reads this, marketData
    {
      && shared.cfg.maxPerStream > 0
      && (forall i :: 0 <= i < |marketData| ==> marketData[i].shared == shared && marketData[i].index == i)
    }

    ghost function Values(): seq<Stream>
      reads this, marketData
    {
      seq(|marketData|, i requires 0 <= i < |marketData| reads this, marketData => marketData[i].Value())
    }

    ghost function Value(): System
      reads this, shared, marketData
    {
      System(shared.symbols, shared.allSymbols, Values(), shared.timeSeriesQueue)
    }

    constructor (cfg: Config)
      requires cfg.maxPerStream > 0
      ensures Valid() && shared.cfg == cfg && Value() == INIT && fresh(shared)
    {
      shared := new Shared(cfg);
      marketData := [];
    }

    method EnsureSymbolSlices(size: nat)
      requires Valid()
      modifies this`marketData
      ensures Valid() && Values() == Grown(old(Values()), size)
      ensures old(marketData) <= marketData
      ensures forall i :: |old(marketData)| <= i < |marketData| ==> fresh(marketData[i])
    {
      while |marketData| < size
        invariant Valid() && |old(marketData)| <= |marketData| <= Max(|old(marketData)|, size)
        invariant forall i :: 0 <= i < |old(marketData)| ==> marketData[i] == old(marketData)[i]
        invariant forall i :: |old(marketData)| <= i < |marketData| ==>
          fresh(marketData[i]) && marketData[i].Value() == Stream(Undefined, [])
      {
        var stream := new MarketData(shared, |marketData|);
        marketData := marketData + [stream];
      }
      assert forall i :: 0 <= i < |old(marketData)| ==> marketData[i].Value() == old(marketData[i].Value());
    }

    method NotifyOne(k: nat, startFrom: nat)
      requires Valid() && k < |marketData| && startFrom <= |shared.symbols|
      modifies shared`timeSeriesQueue, marketData[k]
      ensures Valid()
      ensures Notice(Values(), shared.timeSeriesQueue)
        == NotifyStep(shared.cfg, Notice(old(Values()), old(shared.timeSeriesQueue)), shared.symbols, startFrom, k)
    {
      marketData[k].Subscribe(startFrom);
      assert forall i :: 0 <= i < |marketData| && i != k ==> marketData[i] != marketData[k];
    }

    /** Tells every stream where the new symbols start. */
    method NotifyAll(startFrom: nat)
      requires Valid() && startFrom <= |shared.symbols|
      modifies shared`timeSeriesQueue, marketData
      ensures Valid()
      ensures Notice(Values(), shared.timeSeriesQueue)
        == NotifyUpTo(shared.cfg, Notice(old(Values()), old(shared.timeSeriesQueue)), shared.symbols, startFrom,
                      |marketData|)
    {
      ghost var n := Notice(Values(), shared.timeSeriesQueue);
      for k := 0 to |marketData|
        invariant Valid()
        invariant Notice(Values(), shared.timeSeriesQueue) == NotifyUpTo(shared.cfg, n, shared.symbols, startFrom, k)
      {
        NotifyOne(k, startFrom);
      }
    }

    method OnSymbolsUpdate(batch: seq<Symbol>)
      requires Valid()
      modifies this`marketData, shared`symbols, shared`timeSeriesQueue, marketData
      ensures Valid()
      ensures Value() == SymbolsUpdate(shared.cfg, old(Value()), batch)
    {
      ghost var streams := Values();
      var startFrom := |shared.symbols|;
      shared.symbols := shared.symbols + batch;
      var size := Count(|shared.symbols|, shared.cfg.maxPerStream);
      assert Values() == streams;
      EnsureSymbolSlices(size);
      assert forall k :: 0 <= k < |marketData| ==> marketData[k] in old(marketData) || fresh(marketData[k]);
      NotifyAll(startFrom);
    }

    /** A client asks for symbols. */
    method OnSubscribe(names: seq<Symbol>)
      requires Valid()
      modifies this`marketData, shared`allSymbols, shared`symbols, shared`timeSeriesQueue, marketData
      ensures Valid() && Value() == Step(shared.cfg, old(Value()), Event.Subscribe(names))
    {
      ghost var streams := Values();
      var batch := shared.InsertAll(names);
      assert Values() == streams;
      OnSymbolsUpdate(batch);
    }

    method OnStreamReady(i: nat)
      requires Valid() && i < |marketData|
      modifies shared`timeSeriesQueue, marketData[i]
      ensures Valid() && Value() == Step(shared.cfg, old(Value()), StreamReady(i))
    {
      marketData[i].OnReady();
      assert forall j :: 0 <= j < |marketData| && j != i ==> marketData[j] != marketData[i];
      assert Values() == old(Values())[i := marketData[i].Value()];
    }

    method OnStreamDisconnected(i: nat)
      requires Valid() && i < |marketData|
      modifies marketData[i]
      ensures Valid() && Value() == Step(shared.cfg, old(Value()), StreamDisconnected(i))
    {
      marketData[i].OnDisconnected();
      assert forall j :: 0 <= j < |marketData| && j != i ==> marketData[j] != marketData[i];
      assert Values() == old(Values())[i := marketData[i].Value()];
    }
  }
}

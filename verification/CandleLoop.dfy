/** The loop that groups a candlesticks message into one time series update for each run of a name
    (src/roq/gate_futures/gateway/market_data.cpp). */
module CandleLoop {
  import opened Runs
  import opened Symbols

  /** What the loop starts with. */
  const NO_NAME := Symbol("")

  datatype Item = Item(name: Symbol, time: int, open: real, high: real, low: real, close: real,
                       volume: real, amount: real, confirmed: bool)

  datatype Bar = Bar(beginTime: int, confirmed: bool, open: real, high: real, low: real, close: real,
                     quantity: real, quoteAmount: real)

  datatype Series = Series(symbol: Symbol, bars: seq<Bar>, exchangeTime: int)

  function NameOf(item: Item): Symbol {
    item.name
  }

  /** The bar of a candlestick; high, low and close are filled in from the opening price. */
  function ToBar(item: Item): Bar {
    Bar(item.time, item.confirmed, item.open, item.open, item.open, item.open, item.volume, item.amount)
  }

  /** The other prices of a candlestick survive exactly when they are all equal to the opening price. */
  lemma BarIsFaithfulIff(item: Item)
    ensures ToBar(item)
      == Bar(item.time, item.confirmed, item.open, item.high, item.low, item.close, item.volume, item.amount)
      <==> item.high == item.open && item.low == item.open && item.close == item.open
  {
  }

  predicate Kept(item: Item, realtime: bool) {
    item.confirmed || realtime
  }

  /** The bars of the items that are published, in order. */
  ghost function Bars(items: seq<Item>, realtime: bool): seq<Bar> {
    if items == [] then []
    else
      var front, last := Bars(items[..|items| - 1], realtime), items[|items| - 1];
      if Kept(last, realtime) then front + [ToBar(last)] else front
  }

  lemma BarsSnoc(items: seq<Item>, item: Item, realtime: bool)
    ensures Bars(items + [item], realtime) == Bars(items, realtime) + if Kept(item, realtime) then [ToBar(item)] else []
  {
    assert (items + [item])[..|items|] == items;
  }

  lemma {:induction false} BarsConcat(a: seq<Item>, b: seq<Item>, realtime: bool)
    ensures Bars(a + b, realtime) == Bars(a, realtime) + Bars(b, realtime)
  {
    if b == [] {
      assert a + b == a;
    } else {
      var front, last := b[..|b| - 1], b[|b| - 1];
      BarsConcat(a, front, realtime);
      BarsSnoc(a + front, last, realtime);
      BarsSnoc(front, last, realtime);
      assert a + b == (a + front) + [last] && b == front + [last];
    }
  }

  /** One update for each run that keeps a bar; the other runs leave no trace. */
  ghost function Updates(runs: Runs<Item>, realtime: bool, time: int): seq<Series> {
    match runs
    case Empty => []
    case Snoc(front, last) =>
      var bars := Bars(last, realtime);
      if bars == [] || last == [] then Updates(front, realtime, time)
      else Updates(front, realtime, time) + [Series(last[0].name, bars, time)]
  }

  ghost function SeriesOf(items: seq<Item>, realtime: bool, time: int): seq<Series> {
    Updates(RunsOf(NameOf, items), realtime, time)
  }

  // ----- the loop

  datatype Loop = Loop(symbol: Symbol, bars: seq<Bar>, out: seq<Series>)

  ghost predicate Collecting(l: Loop, runs: Runs<Item>, realtime: bool, time: int) {
    match runs
    case Empty => l == Loop(NO_NAME, [], [])
    case Snoc(front, last) =>
      last != [] && l == Loop(last[0].name, Bars(last, realtime), Updates(front, realtime, time))
  }

  /** Publishes and clears the collected bars, unless there are none. */
  function Flush(l: Loop, time: int): Loop {
    if l.bars == [] then l else Loop(l.symbol, [], l.out + [Series(l.symbol, l.bars, time)])
  }

  function Turn(l: Loop, item: Item, realtime: bool, time: int): Loop {
    var m := if item.name != l.symbol then Flush(l, time).(symbol := item.name) else l;
    if Kept(item, realtime) then m.(bars := m.bars + [ToBar(item)]) else m
  }

  lemma TurnCollects(l: Loop, runs: Runs<Item>, item: Item, realtime: bool, time: int)
    requires Collecting(l, runs, realtime, time)
    ensures Collecting(Turn(l, item, realtime, time), Extend(NameOf, runs, item), realtime, time)
  {
    BarsSnoc([], item, realtime);
    assert [] + [item] == [item];
    match runs
    case Empty =>
    case Snoc(front, last) => BarsSnoc(last, item, realtime);
  }

  ghost function LoopAfter(items: seq<Item>, n: nat, realtime: bool, time: int): Loop
    requires n <= |items|
  {
    if n == 0 then Loop(NO_NAME, [], [])
    else Turn(LoopAfter(items, n - 1, realtime, time), items[n - 1], realtime, time)
  }

  lemma {:induction false} LoopCollects(items: seq<Item>, n: nat, realtime: bool, time: int)
    requires n <= |items|
    ensures Collecting(LoopAfter(items, n, realtime, time), RunsUpTo(NameOf, items, n), realtime, time)
  {
    if n > 0 {
      LoopCollects(items, n - 1, realtime, time);
      var before := LoopAfter(items, n - 1, realtime, time);
      TurnCollects(before, RunsUpTo(NameOf, items, n - 1), items[n - 1], realtime, time);
    }
  }

  lemma CollectedAll(items: seq<Item>, realtime: bool, time: int)
    ensures Flush(LoopAfter(items, |items|, realtime, time), time).out == SeriesOf(items, realtime, time)
  {
    LoopCollects(items, |items|, realtime, time);
  }

  class Publisher {
    /** `Shared::bars`, reused for every message. */
    var bars: seq<Bar>
    /** Everything handed to the dispatcher so far. */
    var published: seq<Series>

    method Helper(symbol: Symbol, time: int)
      modifies this
      ensures bars == []
      ensures published == old(published) + if old(bars) == [] then [] else [Series(symbol, old(bars), time)]
    {
      if bars == [] {
        return;
      }
      published := published + [Series(symbol, bars, time)];
      bars := [];
    }

    method OnCandlesticks(items: seq<Item>, realtime: bool, time: int)
      modifies this
      ensures published == old(published) + SeriesOf(items, realtime, time)
      ensures bars == []
    {
      var symbol := NO_NAME;
      bars := [];
      ghost var out: seq<Series> := [];
      for n := 0 to |items|
        invariant Loop(symbol, bars, out) == LoopAfter(items, n, realtime, time)
        invariant published == old(published) + out
      {
        var item := items[n];
        if item.name != symbol {
          out := Flush(Loop(symbol, bars, out), time).out;
          Helper(symbol, time);
          symbol := item.name;
        }
        if !item.confirmed && !realtime {
          continue;
        }
        bars := bars + [ToBar(item)];
      }
      CollectedAll(items, realtime, time);
      Helper(symbol, time);
    }
  }

  // ----- what is published

  ghost function AllBars(updates: seq<Series>): seq<Bar> {
    if updates == [] then [] else AllBars(updates[..|updates| - 1]) + updates[|updates| - 1].bars
  }

  lemma {:induction false} UpdatesInOrder(runs: Runs<Item>, realtime: bool, time: int)
    ensures AllBars(Updates(runs, realtime, time)) == Bars(Flatten(runs), realtime)
  {
    match runs
    case Empty =>
    case Snoc(front, last) =>
      UpdatesInOrder(front, realtime, time);
      BarsConcat(Flatten(front), last, realtime);
      var before, after := Updates(front, realtime, time), Updates(runs, realtime, time);
      if |after| > |before| {
        assert after[..|before|] == before;
      }
  }

  /** For every message the bars that are published are those of the confirmed (or all, in real time)
      candlesticks, in order and exactly once. */
  lemma PublishedInOrder(items: seq<Item>, realtime: bool, time: int)
    ensures AllBars(SeriesOf(items, realtime, time)) == Bars(items, realtime)
  {
    RunsOfIsPartition(NameOf, items);
    UpdatesInOrder(RunsOf(NameOf, items), realtime, time);
  }

  /** `s` is what is left of some run of `runs`. */
  ghost predicate FromRun(s: Series, runs: Runs<Item>, realtime: bool) {
    runs.Snoc? &&
    (FromRun(s, runs.front, realtime)
     || (runs.last != [] && s.symbol == runs.last[0].name && s.bars == Bars(runs.last, realtime) && s.bars != []))
  }

  /** No update is empty, and none mixes the candlesticks of two names. */
  lemma {:induction false} UpdatesMatchRuns(runs: Runs<Item>, realtime: bool, time: int)
    ensures forall s :: s in Updates(runs, realtime, time) ==> FromRun(s, runs, realtime) && s.exchangeTime == time
  {
    match runs
    case Empty =>
    case Snoc(front, last) => UpdatesMatchRuns(front, realtime, time);
  }
}

/** The loop that groups a trades message into one trade summary for each run of a contract
    (src/roq/gate_futures/gateway/market_data.cpp, with the buffer of gateway/shared.hpp). */
module TradeLoop {
  import opened Common
  import opened Runs
  import opened Symbols

  /** The contract of a trade that carries none. */
  const UNNAMED := Symbol("")

  datatype Item = Item(contract: Symbol, id: int, size: real, price: real, createTime: int)

  datatype Trade = Trade(side: Side, price: real, quantity: real, tradeId: int)

  datatype Summary = Summary(symbol: Symbol, trades: seq<Trade>, exchangeTime: int, sendingTime: int)

  function ContractOf(item: Item): Symbol {
    item.contract
  }

  function ToTrade(item: Item): Trade {
    Trade(if item.size < 0.0 then Sell else Buy, item.price, if item.size < 0.0 then -item.size else item.size, item.id)
  }

  /** The contract of a run. */
  function Name(run: seq<Item>): Symbol {
    if run == [] then UNNAMED else run[0].contract
  }

  function ToTrades(items: seq<Item>): seq<Trade> {
    if items == [] then [] else ToTrades(items[..|items| - 1]) + [ToTrade(items[|items| - 1])]
  }

  lemma {:induction false} ToTradesConcat(a: seq<Item>, b: seq<Item>)
    ensures ToTrades(a + b) == ToTrades(a) + ToTrades(b)
  {
    if b == [] {
      assert a + b == a;
    } else {
      ToTradesConcat(a, b[..|b| - 1]);
      assert (a + b)[..|a + b| - 1] == a + b[..|b| - 1];
    }
  }

  /** The greatest creation time, counted from zero. */
  function MaxTime(items: seq<Item>): int {
    if items == [] then 0 else Max(MaxTime(items[..|items| - 1]), items[|items| - 1].createTime)
  }

  lemma {:induction false} MaxTimeIsGreatest(items: seq<Item>)
    ensures forall item :: item in items ==> item.createTime <= MaxTime(items)
    ensures MaxTime(items) >= 0
    ensures MaxTime(items) == 0 || exists item :: item in items && item.createTime == MaxTime(items)
  {
    if items != [] {
      var n := |items| - 1;
      MaxTimeIsGreatest(items[..n]);
      assert items == items[..n] + [items[n]];
    }
  }

  lemma AddItem(run: seq<Item>, item: Item)
    ensures ToTrades(run + [item]) == ToTrades(run) + [ToTrade(item)]
    ensures MaxTime(run + [item]) == Max(MaxTime(run), item.createTime)
  {
    assert (run + [item])[..|run|] == run;
  }

  // ----- specification over runs

  /** The trades of a run without a contract are not flushed: they wait for the next run. */
  ghost function Carried(runs: Runs<Item>): seq<Trade> {
    match runs
    case Empty => []
    case Snoc(front, last) => if Name(last) == UNNAMED then Carried(front) + ToTrades(last) else []
  }

  ghost function LastSummary(front: Runs<Item>, last: seq<Item>, sendingTime: int): Summary {
    Summary(Name(last), Carried(front) + ToTrades(last), MaxTime(last), sendingTime)
  }

  /** What has been published once the loop has moved past all of these runs. */
  ghost function Flushed(runs: Runs<Item>, sendingTime: int): seq<Summary> {
    match runs
    case Empty => []
    case Snoc(front, last) =>
      if Name(last) == UNNAMED then Flushed(front, sendingTime)
      else Flushed(front, sendingTime) + [LastSummary(front, last, sendingTime)]
  }

  /** What is published for a whole message: the last run is always flushed. */
  ghost function Published(runs: Runs<Item>, sendingTime: int): seq<Summary> {
    match runs
    case Empty => []
    case Snoc(front, last) => Flushed(front, sendingTime) + [LastSummary(front, last, sendingTime)]
  }

  ghost function SummariesOf(items: seq<Item>, sendingTime: int): seq<Summary> {
    Published(RunsOf(ContractOf, items), sendingTime)
  }

  // ----- the loop

  /** The variables of the loop, with the summaries it has published so far. */
  datatype Loop = Loop(contract: Symbol, trades: seq<Trade>, timestamp: int, out: seq<Summary>)

  ghost predicate Collecting(l: Loop, runs: Runs<Item>, sendingTime: int) {
    match runs
    case Empty => l == Loop(UNNAMED, [], 0, [])
    case Snoc(front, last) =>
      l == Loop(Name(last), Carried(front) + ToTrades(last), MaxTime(last), Flushed(front, sendingTime))
  }

  /** One turn of the loop. */
  function Turn(l: Loop, item: Item, sendingTime: int): Loop {
    var m :=
      if item.contract == l.contract then l
      else if l.contract != UNNAMED && l.trades != [] then
        Loop(item.contract, [], 0, l.out + [Summary(l.contract, l.trades, l.timestamp, sendingTime)])
      else Loop(item.contract, l.trades, 0, l.out);
    Loop(m.contract, m.trades + [ToTrade(item)], Max(m.timestamp, item.createTime), m.out)
  }

  /** One more item in the current run. */
  lemma TurnExtends(l: Loop, front: Runs<Item>, last: seq<Item>, item: Item, sendingTime: int)
    requires Collecting(l, Snoc(front, last), sendingTime) && last != [] && item.contract == Name(last)
    ensures Collecting(Turn(l, item, sendingTime), Snoc(front, last + [item]), sendingTime)
  {
    AddItem(last, item);
    ConcatAssociates(Carried(front), ToTrades(last), [ToTrade(item)]);
  }

  /** The first item of a new run: what has been collected is published, unless it carries no contract. */
  lemma TurnStarts(l: Loop, front: Runs<Item>, last: seq<Item>, item: Item, sendingTime: int)
    requires Collecting(l, Snoc(front, last), sendingTime) && last != [] && item.contract != Name(last)
    ensures Collecting(Turn(l, item, sendingTime), Snoc(Snoc(front, last), [item]), sendingTime)
  {
    AddItem([], item);
    assert [] + [item] == [item];
    assert ToTrades(last) != [];
    if Name(last) == UNNAMED {
      assert Turn(l, item, sendingTime).trades == Carried(Snoc(front, last)) + [ToTrade(item)];
    } else {
      assert Turn(l, item, sendingTime).trades == [] + [ToTrade(item)];
    }
  }

  lemma TurnCollects(l: Loop, runs: Runs<Item>, item: Item, sendingTime: int)
    requires Collecting(l, runs, sendingTime) && Maximal(ContractOf, runs)
    ensures Collecting(Turn(l, item, sendingTime), Extend(ContractOf, runs, item), sendingTime)
  {
    match runs
    case Empty =>
      AddItem([], item);
      assert [] + [item] == [item];
    case Snoc(front, last) =>
      if item.contract == Name(last) {
        TurnExtends(l, front, last, item, sendingTime);
      } else {
        TurnStarts(l, front, last, item, sendingTime);
      }
  }

  ghost function LoopAfter(items: seq<Item>, n: nat, sendingTime: int): Loop
    requires n <= |items|
  {
    if n == 0 then Loop(UNNAMED, [], 0, []) else Turn(LoopAfter(items, n - 1, sendingTime), items[n - 1], sendingTime)
  }

  lemma {:induction false} LoopCollects(items: seq<Item>, n: nat, sendingTime: int)
    requires n <= |items|
    ensures Collecting(LoopAfter(items, n, sendingTime), RunsUpTo(ContractOf, items, n), sendingTime)
  {
    if n > 0 {
      LoopCollects(items, n - 1, sendingTime);
      RunsUpToArePartition(ContractOf, items, n - 1);
      TurnCollects(LoopAfter(items, n - 1, sendingTime), RunsUpTo(ContractOf, items, n - 1), items[n - 1], sendingTime);
    }
  }

  lemma CollectedAll(items: seq<Item>, sendingTime: int)
    ensures var l := LoopAfter(items, |items|, sendingTime);
      && (l.trades == [] <==> items == [])
      && SummariesOf(items, sendingTime)
        == l.out + if l.trades == [] then [] else [Summary(l.contract, l.trades, l.timestamp, sendingTime)]
  {
    LoopCollects(items, |items|, sendingTime);
    RunsOfIsPartition(ContractOf, items);
  }

  ghost function LastTrades(batches: seq<Summary>): seq<Trade> {
    if batches == [] then [] else batches[|batches| - 1].trades
  }

  class Publisher {
    /** `Shared::trades`, reused for every message. */
    var trades: seq<Trade>
    /** Everything handed to the dispatcher so far. */
    var published: seq<Summary>

    method OnTrades(items: seq<Item>, sendingTime: int)
      modifies this
      ensures published == old(published) + SummariesOf(items, sendingTime)
      ensures trades == LastTrades(SummariesOf(items, sendingTime))
    {
      trades := [];
      var contract := UNNAMED;
      var timestamp := 0;
      ghost var out: seq<Summary> := [];
      for n := 0 to |items|
        invariant Loop(contract, trades, timestamp, out) == LoopAfter(items, n, sendingTime)
        invariant published == old(published) + out
      {
        var item := items[n];
        if item.contract != contract {
          if contract != UNNAMED && trades != [] {
            published := published + [Summary(contract, trades, timestamp, sendingTime)];
            out := out + [Summary(contract, trades, timestamp, sendingTime)];
            trades := [];
          }
          contract := item.contract;
          timestamp := 0;
        }
        trades := trades + [ToTrade(item)];
        timestamp := Max(timestamp, item.createTime);
      }
      CollectedAll(items, sendingTime);
      if trades != [] {
        published := published + [Summary(contract, trades, timestamp, sendingTime)];
      }
    }
  }

  // ----- what is published

  ghost function AllTrades(batches: seq<Summary>): seq<Trade> {
    if batches == [] then [] else AllTrades(batches[..|batches| - 1]) + batches[|batches| - 1].trades
  }

  lemma AllTradesSnoc(batches: seq<Summary>, last: Summary)
    ensures AllTrades(batches + [last]) == AllTrades(batches) + last.trades
  {
    assert (batches + [last])[..|batches|] == batches;
  }

  lemma {:induction false} FlushedTrades(runs: Runs<Item>, sendingTime: int)
    ensures AllTrades(Flushed(runs, sendingTime)) + Carried(runs) == ToTrades(Flatten(runs))
  {
    match runs
    case Empty =>
    case Snoc(front, last) =>
      FlushedTrades(front, sendingTime);
      AddRun(front, last, sendingTime);
      if Name(last) == UNNAMED {
        ConcatAssociates(AllTrades(Flushed(front, sendingTime)), Carried(front), ToTrades(last));
      } else {
        AllTradesSnoc(Flushed(front, sendingTime), LastSummary(front, last, sendingTime));
      }
  }

  lemma AddRun(front: Runs<Item>, last: seq<Item>, sendingTime: int)
    requires AllTrades(Flushed(front, sendingTime)) + Carried(front) == ToTrades(Flatten(front))
    ensures AllTrades(Flushed(front, sendingTime)) + (Carried(front) + ToTrades(last))
      == ToTrades(Flatten(front) + last)
  {
    ToTradesConcat(Flatten(front), last);
    ConcatAssociates(AllTrades(Flushed(front, sendingTime)), Carried(front), ToTrades(last));
  }

  /** Every trade of every message is published exactly once and in order, also the trades
      that carry no contract. */
  lemma PublishedInOrder(items: seq<Item>, sendingTime: int)
    ensures AllTrades(SummariesOf(items, sendingTime)) == ToTrades(items)
  {
    RunsOfIsPartition(ContractOf, items);
    match RunsOf(ContractOf, items)
    case Empty =>
    case Snoc(front, last) =>
      FlushedTrades(front, sendingTime);
      AddRun(front, last, sendingTime);
      AllTradesSnoc(Flushed(front, sendingTime), LastSummary(front, last, sendingTime));
  }

  /** The signed size of a published trade. */
  function Signed(trade: Trade): real {
    if trade.side.Sell? then -trade.quantity else trade.quantity
  }

  ghost function NetTraded(trades: seq<Trade>): real {
    if trades == [] then 0.0 else NetTraded(trades[..|trades| - 1]) + Signed(trades[|trades| - 1])
  }

  ghost function NetSize(items: seq<Item>): real {
    if items == [] then 0.0 else NetSize(items[..|items| - 1]) + items[|items| - 1].size
  }

  lemma {:induction false} NetOfTrades(items: seq<Item>)
    ensures NetTraded(ToTrades(items)) == NetSize(items)
  {
    if items != [] {
      var front := items[..|items| - 1];
      NetOfTrades(front);
      assert (ToTrades(front) + [ToTrade(items[|items| - 1])])[..|ToTrades(front)|] == ToTrades(front);
    }
  }

  /** Splitting the size into side and quantity loses nothing: the net size is conserved. */
  lemma NetSizeConserved(items: seq<Item>, sendingTime: int)
    ensures NetTraded(AllTrades(SummariesOf(items, sendingTime))) == NetSize(items)
  {
    PublishedInOrder(items, sendingTime);
    NetOfTrades(items);
  }

  // ----- when each summary belongs to its symbol

  /** One summary for each run, holding the trades of that run and no others. */
  ghost function OnePerRun(runs: Runs<Item>, sendingTime: int): seq<Summary> {
    match runs
    case Empty => []
    case Snoc(front, last) =>
      OnePerRun(front, sendingTime) + [Summary(Name(last), ToTrades(last), MaxTime(last), sendingTime)]
  }

  ghost function Count(runs: Runs<Item>): nat {
    match runs
    case Empty => 0
    case Snoc(front, _) => Count(front) + 1
  }

  ghost predicate AllNamed(runs: Runs<Item>) {
    runs.Snoc? ==> AllNamed(runs.front) && Name(runs.last) != UNNAMED
  }

  lemma {:induction false} FlushedIff(runs: Runs<Item>, sendingTime: int)
    ensures |Flushed(runs, sendingTime)| <= Count(runs) == |OnePerRun(runs, sendingTime)|
    ensures |Flushed(runs, sendingTime)| == Count(runs) <==> AllNamed(runs)
    ensures AllNamed(runs) ==> Flushed(runs, sendingTime) == OnePerRun(runs, sendingTime) && Carried(runs) == []
  {
    match runs
    case Empty =>
    case Snoc(front, last) =>
      FlushedIff(front, sendingTime);
      assert [] + ToTrades(last) == ToTrades(last);
  }

  /** No trade without a contract is followed by a trade with one. */
  ghost predicate NothingToGlue(items: seq<Item>) {
    forall i :: 0 < i < |items| && items[i - 1].contract == UNNAMED ==> items[i].contract == UNNAMED
  }

  lemma {:induction false} NamedRuns(runs: Runs<Item>)
    requires Maximal(ContractOf, runs)
    ensures runs.Snoc? ==> (NothingToGlue(Flatten(runs)) <==> AllNamed(runs.front))
  {
    match runs
    case Empty =>
    case Snoc(Empty, last) =>
      assert [] + last == last;
    case Snoc(front, last) =>
      NamedRuns(front);
      var head := Flatten(front);
      assert head == Flatten(front.front) + front.last;
      assert head[|head| - 1] == front.last[|front.last| - 1];
      SplitGlue(head, last);
  }

  lemma SplitGlue(head: seq<Item>, last: seq<Item>)
    requires head != [] && Uniform(ContractOf, last)
    ensures NothingToGlue(head + last)
      <==> NothingToGlue(head) && (head[|head| - 1].contract == UNNAMED ==> Name(last) == UNNAMED)
  {
    var items := head + last;
    if NothingToGlue(items) {
      forall i | 0 < i < |head| && head[i - 1].contract == UNNAMED
        ensures head[i].contract == UNNAMED
      {
        assert items[i - 1] == head[i - 1] && items[i] == head[i];
      }
      assert items[|head| - 1] == head[|head| - 1] && items[|head|] == last[0];
    }
  }

  /** A message is published as one summary for each maximal run of a contract, each holding exactly
      the trades of that run, if and only if no trade without a contract is followed by one that has
      a contract. */
  lemma SummariesAreRunsIff(items: seq<Item>, sendingTime: int)
    ensures SummariesOf(items, sendingTime) == OnePerRun(RunsOf(ContractOf, items), sendingTime)
      <==> NothingToGlue(items)
  {
    var runs := RunsOf(ContractOf, items);
    RunsOfIsPartition(ContractOf, items);
    NamedRuns(runs);
    match runs
    case Empty =>
    case Snoc(front, last) =>
      FlushedIff(front, sendingTime);
      FlushedIff(runs, sendingTime);
      assert [] + ToTrades(last) == ToTrades(last);
  }

  /** A message that is not published run by run: the unnamed trade joins the summary of the next. */
  lemma UnnamedTradeIsGlued(a: Item, b: Item, sendingTime: int)
    requires a.contract == UNNAMED && b.contract != UNNAMED
    ensures SummariesOf([a, b], sendingTime)
      == [Summary(b.contract, [ToTrade(a), ToTrade(b)], Max(0, b.createTime), sendingTime)]
  {
    var items := [a, b];
    CollectedAll(items, sendingTime);
    assert LoopAfter(items, 0, sendingTime) == Loop(UNNAMED, [], 0, []);
    var one := LoopAfter(items, 1, sendingTime);
    assert one == Loop(UNNAMED, [ToTrade(a)], Max(0, a.createTime), []);
    assert LoopAfter(items, 2, sendingTime) == Loop(b.contract, [ToTrade(a), ToTrade(b)], Max(0, b.createTime), []);
  }
}

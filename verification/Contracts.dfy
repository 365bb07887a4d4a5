/** The contracts download: it splits every symbol into currencies, caches settlement coins and hands the
    new symbols to the controller (src/roq/gate_futures/gateway/rest.cpp). */
module Contracts {
  import opened Common
  import opened Symbols
  import opened Subscription
  import opened Controller

  datatype ContractType = UndefinedInternal | UnknownInternal | Index | Direct | Inverse | Stocks

  /** A downloaded contract; `discard` is what the dispatcher says about its symbol. */
  datatype Item = Item(name: string, contractType: ContractType, orderSizeMin: real, discard: bool)

  datatype ReferenceData = ReferenceData(symbol: string, base: string, quote: string, settlement: string,
                                         minTradeVol: real, discard: bool)

  // ----- splitting a symbol

  /** The position of the first underscore; the length when there is none. */
  function Separator(symbol: string): (at: nat)
    ensures at <= |symbol| && '_' !in symbol[..at]
    ensures at < |symbol| ==> symbol[at] == '_'
  {
    if symbol == [] || symbol[0] == '_' then 0 else 1 + Separator(symbol[1..])
  }

  predicate HasSeparator(symbol: string) {
    Separator(symbol) < |symbol|
  }

  function Base(symbol: string): string {
    symbol[..Separator(symbol)]
  }

  function Quote(symbol: string): string
    requires HasSeparator(symbol)
  {
    symbol[Separator(symbol) + 1..]
  }

  /** The two currencies rebuild the symbol, which can be split exactly when it holds an underscore. */
  lemma CurrenciesRebuildSymbol(symbol: string)
    ensures HasSeparator(symbol) <==> '_' in symbol
    ensures HasSeparator(symbol) ==> Base(symbol) + "_" + Quote(symbol) == symbol && '_' !in Base(symbol)
  {
    assert symbol == symbol[..Separator(symbol)] + symbol[Separator(symbol)..];
  }

  function Settlement(item: Item): string
    requires HasSeparator(item.name)
  {
    match item.contractType
    case Direct => Quote(item.name)
    case Inverse => Base(item.name)
    case _ => ""
  }

  function Reference(item: Item): ReferenceData
    requires HasSeparator(item.name)
  {
    ReferenceData(item.name, Base(item.name), Quote(item.name), Settlement(item),
                  if item.orderSizeMin == 0.0 then 1.0 else item.orderSizeMin, item.discard)
  }

  // ----- specification of the loop

  /** How many items are processed: the first one that cannot be split ends the process. */
  function Processed(items: seq<Item>): (n: nat)
    ensures n <= |items|
    ensures forall i :: 0 <= i < n ==> HasSeparator(items[i].name)
    ensures n < |items| ==> !HasSeparator(items[n].name)
  {
    if items == [] || !HasSeparator(items[0].name) then 0 else 1 + Processed(items[1..])
  }

  function References(items: seq<Item>, n: nat): seq<ReferenceData>
    requires n <= Processed(items)
  {
    if n == 0 then [] else References(items, n - 1) + [Reference(items[n - 1])]
  }

  /** The settlement coins after `n` items; discarded symbols are cached too. */
  function SettleCoins(items: seq<Item>, n: nat, coins: map<Symbol, string>): map<Symbol, string>
    requires n <= Processed(items)
  {
    if n == 0 then coins else SettleCoins(items, n - 1, coins)[Symbol(items[n - 1].name) := Settlement(items[n - 1])]
  }

  /** The symbols that are not discarded among the first `n`. */
  function Kept(items: seq<Item>, n: nat): seq<Symbol>
    requires n <= |items|
  {
    if n == 0 then []
    else Kept(items, n - 1) + if items[n - 1].discard then [] else [Symbol(items[n - 1].name)]
  }

  // ----- the loop

  /** The variables of the loop and the state it changes. */
  datatype Work = Work(published: seq<ReferenceData>, coins: map<Symbol, string>, all: set<Symbol>,
                       symbols: seq<Symbol>, counter: nat)

  function Turn(w: Work, item: Item): Work
    requires HasSeparator(item.name)
  {
    var symbol := Symbol(item.name);
    var cached := w.(published := w.published + [Reference(item)], coins := w.coins[symbol := Settlement(item)]);
    if item.discard then cached
    else if symbol in w.all then cached.(counter := w.counter + 1)
    else cached.(all := w.all + {symbol}, symbols := w.symbols + [symbol], counter := w.counter + 1)
  }

  function WorkAfter(w: Work, items: seq<Item>, n: nat): Work
    requires n <= Processed(items)
  {
    if n == 0 then w else Turn(WorkAfter(w, items, n - 1), items[n - 1])
  }

  /** The reference data and the cache after `n` turns. */
  ghost predicate CachedAt(w: Work, items: seq<Item>, n: nat)
    requires n <= Processed(items)
  {
    && WorkAfter(w, items, n).published == w.published + References(items, n)
    && WorkAfter(w, items, n).coins == SettleCoins(items, n, w.coins)
  }

  lemma CachedStep(w: Work, items: seq<Item>, n: nat)
    requires n < Processed(items) && CachedAt(w, items, n)
    ensures CachedAt(w, items, n + 1)
  {
    ConcatAssociates(w.published, References(items, n), [Reference(items[n])]);
  }

  /** The known names, the new symbols and the counter after `n` turns. */
  ghost predicate KeptAt(w: Work, items: seq<Item>, n: nat)
    requires n <= Processed(items)
  {
    var v, kept := WorkAfter(w, items, n), Kept(items, n);
    v.symbols == Fresh(kept, w.all) && v.all == w.all + Elements(kept) && v.counter == |kept|
  }

  lemma TurnKeeps(v: Work, item: Item, kept: seq<Symbol>, all: set<Symbol>)
    requires HasSeparator(item.name) && !item.discard
    requires v.symbols == Fresh(kept, all) && v.all == all + Elements(kept) && v.counter == |kept|
    ensures var t, more := Turn(v, item), kept + [Symbol(item.name)];
      t.symbols == Fresh(more, all) && t.all == all + Elements(more) && t.counter == |more|
  {
    KeepOne(kept, Symbol(item.name), all);
  }

  lemma KeptStep(w: Work, items: seq<Item>, n: nat)
    requires n < Processed(items) && KeptAt(w, items, n)
    ensures KeptAt(w, items, n + 1)
  {
    if items[n].discard {
      assert Kept(items, n + 1) == Kept(items, n);
    } else {
      TurnKeeps(WorkAfter(w, items, n), items[n], Kept(items, n), w.all);
    }
  }

  lemma KeepOne(kept: seq<Symbol>, x: Symbol, all: set<Symbol>)
    ensures Fresh(kept + [x], all)
      == if x in all + Elements(kept) then Fresh(kept, all) else Fresh(kept, all) + [x]
    ensures Elements(kept + [x]) == Elements(kept) + {x}
  {
    FreshSnoc(kept, x, all);
    FreshIsNew(kept, all);
    assert x in Fresh(kept, all) <==> x in Elements(Fresh(kept, all));
  }

  /** What the loop leaves behind. */
  lemma WorkIs(w: Work, items: seq<Item>)
    requires w.symbols == [] && w.counter == 0
    ensures var n := Processed(items); var kept := Kept(items, n);
      WorkAfter(w, items, n)
      == Work(w.published + References(items, n), SettleCoins(items, n, w.coins), w.all + Elements(kept),
              Fresh(kept, w.all), |kept|)
  {
    for n := 0 to Processed(items)
      invariant CachedAt(w, items, n) && KeptAt(w, items, n)
    {
      CachedStep(w, items, n);
      KeptStep(w, items, n);
    }
  }

  class Rest {
    const controller: Controller
    var published: seq<ReferenceData>

    constructor (controller: Controller)
      ensures this.controller == controller && published == []
    {
      this.controller := controller;
      published := [];
    }

    /** Processes one contract; `symbols` and `counter` are what the loop has collected. */
    method ProcessItem(item: Item, symbols: seq<Symbol>, counter: nat) returns (collected: seq<Symbol>, counted: nat)
      requires HasSeparator(item.name)
      modifies this`published, controller.shared`settleCoins, controller.shared`allSymbols
      ensures Work(published, controller.shared.settleCoins, controller.shared.allSymbols, collected, counted)
        == Turn(old(Work(published, controller.shared.settleCoins, controller.shared.allSymbols, symbols, counter)),
                item)
    {
      var shared := controller.shared;
      collected, counted := symbols, counter;
      published := published + [Reference(item)];
      shared.settleCoins := shared.settleCoins[Symbol(item.name) := Settlement(item)];
      if item.discard {
        return;
      }
      if Symbol(item.name) !in shared.allSymbols {
        shared.allSymbols := shared.allSymbols + {Symbol(item.name)};
        collected := collected + [Symbol(item.name)];
      }
      counted := counted + 1;
    }

    /** Processes the downloaded contracts; `fatal` when the process ends on a malformed symbol. */
    method ProcessContracts(items: seq<Item>) returns (symbols: seq<Symbol>, counter: nat, fatal: bool)
      modifies this`published, controller.shared`settleCoins, controller.shared`allSymbols
      ensures fatal <==> Processed(items) < |items|
      ensures published == old(published) + References(items, Processed(items))
      ensures controller.shared.settleCoins == SettleCoins(items, Processed(items), old(controller.shared.settleCoins))
      ensures symbols == Fresh(Kept(items, Processed(items)), old(controller.shared.allSymbols))
      ensures controller.shared.allSymbols
        == old(controller.shared.allSymbols) + Elements(Kept(items, Processed(items)))
      ensures counter == |Kept(items, Processed(items))|
    {
      var shared := controller.shared;
      ghost var w := Work(published, shared.settleCoins, shared.allSymbols, [], 0);
      symbols, counter, fatal := [], 0, false;
      for n := 0 to |items|
        invariant n <= Processed(items) && !fatal
        invariant Work(published, shared.settleCoins, shared.allSymbols, symbols, counter) == WorkAfter(w, items, n)
      {
        if !HasSeparator(items[n].name) {
          fatal := true;
          WorkIs(w, items);
          return;
        }
        symbols, counter := ProcessItem(items[n], symbols, counter);
      }
      WorkIs(w, items);
    }

    /** The contracts have been downloaded: the new symbols go to the controller, if there are any. */
    method OnContractsAck(items: seq<Item>) returns (fatal: bool)
      requires controller.Valid()
      modifies this`published, controller`marketData, controller.shared, controller.marketData
      ensures fatal <==> Processed(items) < |items|
      ensures published == old(published) + References(items, Processed(items))
      ensures controller.shared.settleCoins == SettleCoins(items, Processed(items), old(controller.shared.settleCoins))
      ensures controller.Valid()
      ensures !fatal ==>
        controller.Value()
        == Step(controller.shared.cfg, old(controller.Value()), Event.Contracts(Kept(items, |items|)))
    {
      ghost var before := controller.Value();
      var symbols, counter;
      symbols, counter, fatal := ProcessContracts(items);
      assert controller.Values() == before.streams;
      ghost var kept := Kept(items, Processed(items));
      assert controller.Value() == before.(all := before.all + Elements(kept)) && symbols == Fresh(kept, before.all);
      if !fatal && symbols != [] {
        controller.OnSymbolsUpdate(symbols);
      }
    }
  }

  // ----- what the cache holds

  /** The last of the first `n` items with this symbol; `n` when there is none. */
  function LastWith(items: seq<Item>, n: nat, x: Symbol): (i: nat)
    requires n <= |items|
    ensures i <= n
    ensures i < n ==> Symbol(items[i].name) == x
    ensures forall j :: 0 <= j < n && Symbol(items[j].name) == x ==> j <= i < n
  {
    if n == 0 then 0
    else if Symbol(items[n - 1].name) == x then n - 1
    else
      var i := LastWith(items, n - 1, x);
      if i == n - 1 then n else i
  }

  function Lookup(coins: map<Symbol, string>, x: Symbol): Option<string> {
    if x in coins then Some(coins[x]) else None
  }

  /** The last occurrence of a symbol decides its coin, discarded or not; other coins stay. */
  lemma {:induction false} LastOccurrenceWins(items: seq<Item>, n: nat, coins: map<Symbol, string>, x: Symbol)
    requires n <= Processed(items)
    ensures var i := LastWith(items, n, x);
      Lookup(SettleCoins(items, n, coins), x) == if i < n then Some(Settlement(items[i])) else Lookup(coins, x)
  {
    if n > 0 {
      LastOccurrenceWins(items, n - 1, coins, x);
    }
  }

  /** Downloading the same contracts again adds no symbol and leaves the coins as they are. */
  lemma SecondDownloadChangesNothing(items: seq<Item>, coins: map<Symbol, string>, all: set<Symbol>)
    ensures var n := Processed(items);
      && SettleCoins(items, n, SettleCoins(items, n, coins)) == SettleCoins(items, n, coins)
      && Fresh(Kept(items, n), all + Elements(Kept(items, n))) == []
  {
    var n := Processed(items);
    var once := SettleCoins(items, n, coins);
    var twice := SettleCoins(items, n, once);
    forall x
      ensures Lookup(twice, x) == Lookup(once, x)
    {
      LastOccurrenceWins(items, n, coins, x);
      LastOccurrenceWins(items, n, once, x);
    }
    assert forall x :: x in twice <==> Lookup(twice, x).Some?;
    assert forall x :: x in once <==> Lookup(once, x).Some?;
    var kept := Kept(items, n);
    FreshIsNew(kept, all + Elements(kept));
    NoElements(Fresh(kept, all + Elements(kept)));
  }
}

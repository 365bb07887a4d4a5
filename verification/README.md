# Gate.io futures gateway: a verified model

The gateway connects a trading system to the Gate.io futures exchange. This project models the parts of it
that carry state, and proves what they keep over every run.

- `Symbols`, `Subscription`, `Controller`, `Contracts`: symbols arrive in batches from clients and from the
  contracts download, are de-duplicated and cut into slices, and each slice is served by one market data
  stream that may connect and disconnect at any time.
- `OrderSession`, `OrderSessionSafety`, `OrderSessionProgress`, `RestRequests`, `TradeRouter`, `RestResponse`:
  the order stream logs in, downloads account and orders, recovers stale orders and becomes ready, with the
  help of a REST stream. Exchange, connections and timers are the environment; any message that is not an
  answer may come at any time.
- `DropCopy`, `OrderEntry`, `AccountStreams`: the two streams as objects, and both together with their
  connections, for which every event is a step of the state machine.
- `Runs`, `TradeLoop`, `CandleLoop`: the loops that group a message by symbol into batches.
- `Throttle`: the rate limit deadline and its history.
- `Decimal`, `Json`, `Encoder`, `EncoderRoundTrip`, `OrderReport`: order requests as text, a reader for that
  text, and what an order looks like when the exchange reports it back.

Where the source updates an object, there is a class whose methods are proved against a function on values;
the theorems over all runs are lemmas about those functions.

## Libraries and inputs

The gateway is written on top of libraries that are not part of the repository. They are modelled by what
their use shows, and no more is assumed:

- `core::Symbols` is an append-only sequence with slices of a fixed size; asking for a slice from an index
  drops what lies before that index.
- `core::Download2` enters the first state when begun, moves on at once when its callback returns zero, waits
  for one check when it returns one, and needs the named state in a strict check.
- `core::limit::Request` is requested, then in flight, then committed; committing is unconditional.
- What `fmt`, `Decimal` and the generated decoders do is writing and reading of numbers and strings.

Clock readings, responses, the dispatcher's stale orders and discard decisions, and whether rate limits allow
a request are parameters. The exchange answers each request of a connection at most once, and never one of an
earlier connection.

## Where the code does not do what it is meant to do

Each has a lemma with the exact condition:

- A 429 does not hold requests back when an old deadline has passed (`TooManyRequestsSuspendsIff`).
- The ten minutes of a 403 are lifted by a change of the limits to values that are not exhausted, or without a
  reset time; a change that leaves them exhausted does not lift them (`ForbiddenHoldsIff`).
- A trade without a contract is published under the symbol of the next trade (`SummariesAreRunsIff`).
- Bars carry the opening price as high, low and close (`BarIsFaithfulIff`).
- A lookback on restart has no effect in any run without an ordinary lookback (`RestartLookbackIsUsedIff`,
  `RestartLookbackCanBeUsedIff`).
- Strings are written without escapes (`PlaceReadsBackIff`, `AmendReadsBackIff`, `CancelReadsBackIff`,
  `CancelAllReadsBackIff`, `StatusReadsBackIff`).
- A rejected amendment is reported as a cancellation (`ResponseNamesItsRequestIff`).

The user documentation (src/roq/gate_futures/index.rst:100) says that orders cannot be modified; the code
encodes amendments, and the model follows the code. The recorded reply in test/json_trade_order_status.cpp:36
echoes a number, while the code sends the client order id as request id; `RejectsTheOrderAskedAbout` says what
follows from an echo of what is sent.

## Model

| member | source | states |
|---|---|---|
| `Throttle.Throttle.UpdateSuspendUntil` | src/roq/gate_futures/tools/throttle.cpp:78-96 | the new deadline: nothing when disabled, zero when requests remain or no reset is known, otherwise the later of the old deadline and the reset time on the system clock (5 s when it has passed) |
| `Throttle.Throttle.OnMessageHeader` | src/roq/gate_futures/tools/throttle.cpp:71-115 | the whole new state for each kind of header; only a changed value touches the deadline |
| `Throttle.Throttle.OnMessageEnd` | src/roq/gate_futures/tools/throttle.cpp:117-139 | the new deadline for 403, 429 and other statuses |
| `Throttle.RefinesHistory` | src/roq/gate_futures/tools/throttle.cpp:71-139 | for every history of an enabled throttle: the deadline is zero exactly when nobody has asked for a suspension since the last clear, and otherwise it is the greatest demand that counts, where a 429 counts only when it is the first to ask |
| `Throttle.MonotoneBetweenClears` | src/roq/gate_futures/tools/throttle.cpp:88-95 | between two clears the deadline never moves back, for all histories and all pairs of points |
| `Throttle.ForbiddenHoldsIff` | src/roq/gate_futures/tools/throttle.cpp:78-127 | for every history: the ten minutes of a 403 stand in all later states if and only if no header after it changes the limits to values that leave no reason to wait |
| `Throttle.ForbiddenCanBeLifted` | src/roq/gate_futures/tools/throttle.cpp:82-83 | a reachable history in which new limits lift the ten minutes at once |
| `Throttle.ExhaustedMeansSuspended` | src/roq/gate_futures/tools/throttle.cpp:82-96 | in every reachable state exhausted limits with a reset time come with a suspension |
| `Throttle.HeaderOrderKeepsOpenness` | src/roq/gate_futures/tools/throttle.cpp:98-114 | when a message changes both limits, whether the throttle ends up open depends on the new limits only, in either order of the headers and with any readings of the clocks |
| `Throttle.HeaderOrdersAgreeIff` | src/roq/gate_futures/tools/throttle.cpp:78-114 | for one reading of the clocks, exactly when the deadline itself is the same in both orders |
| `Throttle.TooManyRequestsSuspendsIff` | src/roq/gate_futures/tools/throttle.cpp:129-134 | a 429 holds requests back if and only if no deadline was set or the one that is set is still ahead |
| `Throttle.TooManyRequestsMissed` | src/roq/gate_futures/tools/throttle.cpp:129-134 | a reachable history in which a 429 holds nothing back |
| `Throttle.DisabledNeverSuspends` | src/roq/gate_futures/tools/throttle.cpp:79-81 | a disabled throttle never has a deadline |
| `Runs.PartitionIsUnique` | src/roq/gate_futures/gateway/market_data.cpp:306-325 | there is only one way to cut a message into maximal runs of equal keys, so the specification of both loops is independent of them |
| `Runs.RunsOfIsPartition` | src/roq/gate_futures/gateway/market_data.cpp:306-325 | the runs used as specification are non-empty, have one key each, differ from their neighbours and join to the message |
| `TradeLoop.Publisher.OnTrades` | src/roq/gate_futures/gateway/market_data.cpp:281-339 | whatever the reused buffer held before, a message appends exactly the summaries that its runs specify |
| `TradeLoop.PublishedInOrder` | src/roq/gate_futures/gateway/market_data.cpp:306-337 | for every message the trades of the summaries, joined, are the trades of the message, each once and in order |
| `TradeLoop.NetSizeConserved` | src/roq/gate_futures/gateway/market_data.cpp:289-303 | the net signed size of what is published is that of the message |
| `TradeLoop.SummariesAreRunsIff` | src/roq/gate_futures/gateway/market_data.cpp:306-322 | there is one summary for each maximal run, with exactly its trades and its latest time, if and only if no trade without a contract is followed by one with a contract |
| `TradeLoop.UnnamedTradeIsGlued` | src/roq/gate_futures/gateway/market_data.cpp:308-322 | the smallest messages for which that fails: the unnamed trade is published under the symbol of its successor |
| `TradeLoop.MaxTimeIsGreatest` | src/roq/gate_futures/gateway/market_data.cpp:321-324 | the time of a run is an upper bound of its creation times, and one of them or zero |
| `CandleLoop.Publisher.OnCandlesticks` | src/roq/gate_futures/gateway/market_data.cpp:443-494 | whatever the reused buffer held before, a message appends exactly the updates that its runs specify and leaves the buffer empty |
| `CandleLoop.PublishedInOrder` | src/roq/gate_futures/gateway/market_data.cpp:470-491 | for every message, empty names included, the published bars are those of the confirmed (or, in real time, all) candlesticks in order and once |
| `CandleLoop.UpdatesMatchRuns` | src/roq/gate_futures/gateway/market_data.cpp:450-474 | no update is empty and each is what is left of one maximal run of its name |
| `CandleLoop.BarIsFaithfulIff` | src/roq/gate_futures/gateway/market_data.cpp:477-488 | high, low and close of a candlestick survive exactly when they equal its opening price |
| `Symbols.SlicesPartition` | src/roq/gate_futures/gateway/controller.cpp:219-220 | slices joined in index order are the symbols, and none is longer than the limit |
| `Symbols.SliceGrows` | src/roq/gate_futures/gateway/market_data.cpp:164-168 | after a batch a slice is what it was followed by its part of the batch |
| `Symbols.BeginIsMultiple` | src/roq/gate_futures/gateway/controller.cpp:219-220 | slice i begins at i times the slice size, or at the end |
| `Symbols.CountIsCeiling` | src/roq/gate_futures/gateway/controller.cpp:228-236 | there are as many slices as the size fits into the number of symbols, rounded up |
| `Symbols.FreshIsNew` | src/roq/gate_futures/gateway/controller.cpp:137-143 | the names let through are exactly the unseen ones, none of them twice |
| `Subscription.SubscribesEachOnce` | src/roq/gate_futures/gateway/market_data.cpp:504-577 | the messages of one subscribe call put every symbol on every channel exactly once and in order; candlesticks only with a lookback |
| `Subscription.HistoryMatchesCandlesticks` | src/roq/gate_futures/gateway/market_data.cpp:559-576 | in one call a stream queues for history exactly the symbols that it adds to its candlesticks channel |
| `Subscription.QueueIsWhatWasSubscribed` | src/roq/gate_futures/gateway/market_data.cpp:557-577 | in every run the queue for history is what all streams have subscribed on the candlesticks channel, over all of their sessions and in the order of sending |
| `Subscription.ReadyStreamSubscribesItsSlice` | src/roq/gate_futures/gateway/market_data.cpp:164-186 | for every interleaving of batches, readiness and disconnects: a ready stream has subscribed in its session exactly its slice, each symbol once, on every channel |
| `Subscription.StreamsCoverSymbols` | src/roq/gate_futures/gateway/controller.cpp:217-236 | in every reachable state the slices of the streams join to the symbols, stay within the limit, are as many as needed, and the symbols are the known names without duplicates |
| `Subscription.AllReadyMeansEverySymbolOnce` | src/roq/gate_futures/gateway/controller.cpp:217-224 | once all streams are ready, what they have subscribed, joined, is the symbol sequence, which has no duplicates |
| `Subscription.NothingShrinks` | src/roq/gate_futures/gateway/controller.cpp:217-236 | symbols are only appended, streams only added and names never forgotten |
| `Subscription.KnownSymbolsChangeNothing` | src/roq/gate_futures/gateway/controller.cpp:134-148 | asking again for known symbols, by either entry point, sends nothing and changes nothing |
| `Controller.Shared.InsertAll` | src/roq/gate_futures/gateway/controller.cpp:137-143 | the new names in order of first appearance, and the set of known names after it |
| `Controller.MarketData.SubscribeBooks` | src/roq/gate_futures/gateway/market_data.cpp:535-554 | one order book message for each symbol, in order |
| `Controller.MarketData.SubscribeCandles` | src/roq/gate_futures/gateway/market_data.cpp:557-577 | one candlesticks message and one queued history for each symbol, in order |
| `Controller.MarketData.SubscribeSymbols` | src/roq/gate_futures/gateway/market_data.cpp:504-516 | nothing for no symbols, otherwise the messages of all channels |
| `Controller.MarketData.Subscribe` | src/roq/gate_futures/gateway/market_data.cpp:164-169 | only a stream that is ready sends, and only for the part of its slice that starts at the given index |
| `Controller.MarketData.OnReady` | src/roq/gate_futures/gateway/market_data.cpp:182-186 | a new session subscribes the whole slice |
| `Controller.Controller.EnsureSymbolSlices` | src/roq/gate_futures/gateway/controller.cpp:228-236 | existing streams are kept and new ones appended up to the number of slices |
| `Controller.Controller.NotifyAll` | src/roq/gate_futures/gateway/controller.cpp:221-223 | every stream, in order, is told where the new symbols start |
| `Controller.Controller.OnSymbolsUpdate` | src/roq/gate_futures/gateway/controller.cpp:217-224 | the whole new state after a batch of symbols |
| `Controller.Controller.OnSubscribe` | src/roq/gate_futures/gateway/controller.cpp:134-148 | a client subscription is the subscribe step of the protocol |
| `Controller.Controller.OnStreamReady` | src/roq/gate_futures/gateway/market_data.cpp:182-186 | a stream that becomes ready is the ready step of the protocol, and no other stream changes |
| `Controller.Controller.OnStreamDisconnected` | src/roq/gate_futures/gateway/market_data.cpp:176-180 | a stream that disconnects is the disconnect step of the protocol, and no other stream changes |
| `Contracts.CurrenciesRebuildSymbol` | src/roq/gate_futures/gateway/rest.cpp:305-314 | a symbol can be split exactly when it holds an underscore, and its currencies rebuild it |
| `Contracts.Rest.ProcessItem` | src/roq/gate_futures/gateway/rest.cpp:301-383 | one turn of the loop: what is published and cached for every item, and what is inserted and counted for one that is not discarded |
| `Contracts.Rest.ProcessContracts` | src/roq/gate_futures/gateway/rest.cpp:295-382 | reference data, settlement coins, known names, new symbols and the counter after the loop, and when the process ends on a malformed symbol |
| `Contracts.Rest.OnContractsAck` | src/roq/gate_futures/gateway/rest.cpp:295-393 | the download is the contracts step of the subscription protocol, which is taken only for a batch that is not empty |
| `Contracts.LastOccurrenceWins` | src/roq/gate_futures/gateway/rest.cpp:371-372 | the coin of a symbol is decided by its last occurrence, discarded or not; other coins stay |
| `Contracts.SecondDownloadChangesNothing` | src/roq/gate_futures/gateway/rest.cpp:371-380 | downloading the same contracts again adds no symbol and leaves every coin as it is |
| `RestResponse.HandlersRunAtMostOnce` | src/roq/gate_futures/gateway/order_entry.cpp:415-466 | no handler runs twice, both run exactly when the success handler throws, and the process ends exactly on a redirect or on a 409 with assertions |
| `OrderEntry.OrderEntry.SendIfPending` | src/roq/gate_futures/gateway/order_entry.cpp:409-413 | a request that is asked for and allowed goes in flight, once, with the lookback that applies |
| `OrderEntry.OrderEntry.OnConnected` | src/roq/gate_futures/gateway/order_entry.cpp:175-178 | the stream is ready |
| `OrderEntry.OrderEntry.OnDisconnected` | src/roq/gate_futures/gateway/order_entry.cpp:180-184 | the stream is not ready any more |
| `OrderEntry.OrderEntry.OnTimer` | src/roq/gate_futures/gateway/order_entry.cpp:127-134 | only a ready stream sends, it tries the three kinds in order, and a request for trades carries the lookback that applies |
| `OrderEntry.OrderEntry.ProcessResponse` | src/roq/gate_futures/gateway/order_entry.cpp:415-466 | exactly the handler calls of the response, and trades count as downloaded only when their handler has completed |
| `OrderEntry.OrderEntry.OnAck` | src/roq/gate_futures/gateway/order_entry.cpp:219-232 | every response that the process survives adds exactly one commit of its kind, whatever the handlers made of it |
| `RestRequests.OrderStreamOnlyAsks` | src/roq/gate_futures/gateway/drop_copy.cpp:267-326 | whatever happens to the order stream, it only asks for requests: it sends none and commits none, and asks for trades only with an ordinary lookback |
| `RestRequests.SentIsAnsweredOrOpen` | src/roq/gate_futures/gateway/order_entry.cpp:219-232 | conservation over every run: the requests sent of each kind are those answered and those not yet answered |
| `RestRequests.NoLookbackNoTrades` | src/roq/gate_futures/gateway/drop_copy.cpp:310-317 | without an ordinary lookback no run ever asks for trades, whatever the lookback on restart |
| `RestRequests.LookbacksChangeOnce` | src/roq/gate_futures/gateway/order_entry.cpp:78-85 | in every run the requests for trades carry the lookback on restart until trades have been downloaded, and the ordinary one from then on |
| `RestRequests.RestartLookbackIsUsedIff` | src/roq/gate_futures/gateway/drop_copy.cpp:310-317 | in every run a stream that is ready has sent a first request for trades with the lookback on restart if and only if the ordinary lookback is set too |
| `RestRequests.RestartLookbackCanBeUsedIff` | src/roq/gate_futures/gateway/drop_copy.cpp:310-317 | there is a run at all that uses a lookback on restart if and only if the ordinary lookback is set too |
| `DropCopy.DropCopy.OnDownload` | src/roq/gate_futures/gateway/drop_copy.cpp:267-326 | what entering each state sends, asks for and sets, and whether the download waits in it |
| `DropCopy.DropCopy.AdvanceDownload` | src/roq/gate_futures/gateway/drop_copy.cpp:267-326 | moving on runs through states that do not wait until one does, or the download is done |
| `DropCopy.DropCopy.OnSocketReady` | src/roq/gate_futures/gateway/drop_copy.cpp:234-238 | a new connection sends a login |
| `DropCopy.DropCopy.OnSocketDisconnected` | src/roq/gate_futures/gateway/drop_copy.cpp:223-232 | readiness, download and stale counter are reset; the deadline of the stale check is not |
| `DropCopy.DropCopy.OnTradeLogin` | src/roq/gate_futures/gateway/drop_copy.cpp:330-348 | the three outcomes of a login |
| `DropCopy.DropCopy.OnTradeSubscribe` | src/roq/gate_futures/gateway/drop_copy.cpp:350-387 | each account channel checks its own state |
| `DropCopy.DropCopy.AskForStaleOrders` | src/roq/gate_futures/gateway/drop_copy.cpp:1029-1045 | one order status request, and one count, for each stale order |
| `DropCopy.DropCopy.OnTradeOrderList` | src/roq/gate_futures/gateway/drop_copy.cpp:674-686 | stale orders are counted before the download moves on |
| `DropCopy.DropCopy.OnTradeOrderStatus` | src/roq/gate_futures/gateway/drop_copy.cpp:688-746 | the counter goes down, a zero counter ends the process, and the last answer moves the download on |
| `DropCopy.DropCopy.OnMessage` | src/roq/gate_futures/protocol/json/trade_parser.cpp:46-191 | router and handlers composed |
| `DropCopy.DropCopy.CheckRequests` | src/roq/gate_futures/gateway/drop_copy.cpp:991-1027 | the download moves on from the state that waits for a request which has been committed |
| `DropCopy.DropCopy.OnTimerEvent` | src/roq/gate_futures/gateway/drop_copy.cpp:128-136 | committed requests are looked at first, stale orders second and only when ready and due |
| `AccountStreams.AccountStreams.OnSocketReady` | src/roq/gate_futures/gateway/drop_copy.cpp:234-238 | a new connection is the first step of a session |
| `AccountStreams.AccountStreams.OnSocketDisconnected` | src/roq/gate_futures/gateway/drop_copy.cpp:223-232 | a disconnect is the disconnect step: what was on the wire is lost |
| `AccountStreams.AccountStreams.OnText` | src/roq/gate_futures/protocol/json/trade_parser.cpp:46-191 | a message is the text step of the session |
| `AccountStreams.AccountStreams.OnTimer` | src/roq/gate_futures/gateway/drop_copy.cpp:128-136 | the timer of the order stream is the timer step |
| `AccountStreams.AccountStreams.OnRestConnected` | src/roq/gate_futures/gateway/order_entry.cpp:175-178 | the REST connection is there: the connect step |
| `AccountStreams.AccountStreams.OnRestDisconnected` | src/roq/gate_futures/gateway/order_entry.cpp:180-184 | the REST connection is lost: the disconnect step |
| `AccountStreams.AccountStreams.OnRestTimer` | src/roq/gate_futures/gateway/order_entry.cpp:127-134 | the timer of the REST stream is its timer step, with the lookbacks that it sends |
| `AccountStreams.AccountStreams.OnRestReply` | src/roq/gate_futures/gateway/order_entry.cpp:219-232 | a response is the reply step, and one commit |
| `AccountStreams.AccountStreams.Take` | src/roq/gate_futures/gateway/drop_copy.cpp:128-348 | the two streams as objects, together: every event is the step of the state machine |
| `AccountStreams.AccountStreams.Handle` | src/roq/gate_futures/gateway/drop_copy.cpp:128-348 | for every object that can be produced and every legal event: no internal fault, obligations, counter and readiness agree, and every reply so far has been one commit |
| `OrderSessionSafety.StepKeeps` | src/roq/gate_futures/gateway/drop_copy.cpp:128-348 | every event that the environment may cause keeps the invariant of the whole session or ends the process for a reason of the exchange |
| `OrderSessionSafety.NoInternalFault` | src/roq/gate_futures/gateway/drop_copy.cpp:736-741 | for every run with at most one reply to each request of a connection: no assertion fails, no strict check meets another state, and no order status arrives at a zero counter |
| `OrderSessionSafety.ReachableStates` | src/roq/gate_futures/gateway/drop_copy.cpp:267-326 | in every reachable state the counter is the number of order statuses outstanding, exactly the obligation of the state is open, and ready flag, connection status and download state agree |
| `OrderSessionSafety.ReadyAccount` | src/roq/gate_futures/gateway/drop_copy.cpp:275-322 | a ready stream has had, since its login, exactly four subscribe replies and one order list, has consumed two or (with a lookback) three committed requests, and has an answer to every order status but those outstanding |
| `OrderSessionSafety.SubscribeReplyFindsItsState` | src/roq/gate_futures/protocol/json/trade_parser.cpp:111-143 | in every run a subscribe reply that reaches its handler is for an account channel and finds the download in the state that waits for it |
| `OrderSessionSafety.AdvanceIs` | src/roq/gate_futures/gateway/drop_copy.cpp:301-317 | the state that the download moves on to: without stale orders, and without a lookback, one state is passed over |
| `OrderSessionProgress.StepMoves` | src/roq/gate_futures/gateway/drop_copy.cpp:267-326 | while the download is under way its state changes exactly on the answer it waits for, and to which state |
| `OrderSessionProgress.EveryAnswerIsProgress` | src/roq/gate_futures/gateway/drop_copy.cpp:267-326 | without a disconnect the states still to come and the open order statuses get less with every awaited answer and never more |
| `OrderSessionProgress.LeavesAfterReply` | src/roq/gate_futures/gateway/drop_copy.cpp:999-1023 | in every run the order stream leaves a state that waits for the REST stream only on its timer, and only after a reply to that kind of request during the same stay |
| `OrderSessionProgress.CanBecomeReady` | src/roq/gate_futures/gateway/drop_copy.cpp:267-326 | from every state of the invariant with a live connection some run of the environment leads this connection to ready |
| `OrderSessionProgress.ReachableCanBecomeReady` | src/roq/gate_futures/gateway/drop_copy.cpp:267-326 | the same from every state that a run can lead to |
| `OrderSessionProgress.DeadlineStep` | src/roq/gate_futures/gateway/drop_copy.cpp:1047-1052 | no event but a stale check moves the deadline of the stale check, disconnects included |
| `OrderSessionProgress.ChecksAreSpaced` | src/roq/gate_futures/gateway/drop_copy.cpp:1047-1052 | in every run consecutive stale checks are more than the period apart, for any readings of the clock |
| `OrderSessionProgress.StaleChecksAreRateLimited` | src/roq/gate_futures/gateway/drop_copy.cpp:1047-1052 | a window of the clock sees at most its length over the period, plus one, stale checks |
| `Decimal.DecimalReadsBack` | src/roq/gate_futures/protocol/json/encoder.cpp:112-113 | a number is written by the grammar of section 6 of RFC 8259 and reads back with the same units and places |
| `Json.ReadsBackIff` | src/roq/gate_futures/protocol/json/encoder.cpp:84-104 | writing and reading are inverse on a value exactly when its strings need no escape and its numbers are numbers |
| `Encoder.Encoder.OrderPlace` | src/roq/gate_futures/protocol/json/encoder.cpp:20-118 | the piecewise text is the document of the order, whatever the buffer held; an unsupported time in force leaves the buffer empty |
| `Encoder.Encoder.OrderAmend` | src/roq/gate_futures/protocol/json/encoder.cpp:120-166 | the piecewise text is the document of the amendment, in all four shapes |
| `Encoder.Encoder.OrderCancel` | src/roq/gate_futures/protocol/json/encoder.cpp:168-202 | the piecewise text is the document of the cancellation |
| `Encoder.Encoder.OrderCancelCp` | src/roq/gate_futures/protocol/json/encoder.cpp:204-232 | the piecewise text is the document of the cancellation of all orders of a symbol |
| `Encoder.Encoder.OrderStatus` | src/roq/gate_futures/gateway/drop_copy.cpp:949-989 | the piecewise text is the document of the order status request, in both shapes |
| `EncoderRoundTrip.PlaceReadsBack` | src/roq/gate_futures/protocol/json/encoder.cpp:84-116 | a reader recovers id, time, channel, request id and every parameter of a new order, the side as the sign of the size |
| `EncoderRoundTrip.AmendReadsBack` | src/roq/gate_futures/protocol/json/encoder.cpp:133-164 | a reader recovers an amendment in all four shapes, and which of size and price were given |
| `EncoderRoundTrip.CancelReadsBack` | src/roq/gate_futures/protocol/json/encoder.cpp:181-200 | a reader recovers id, time, channel, request id and order of a cancellation |
| `EncoderRoundTrip.CancelAllReadsBack` | src/roq/gate_futures/protocol/json/encoder.cpp:211-230 | a reader recovers id, time, channel, request id and contract of a cancellation of all orders |
| `EncoderRoundTrip.StatusReadsBack` | src/roq/gate_futures/gateway/drop_copy.cpp:949-989 | a reader recovers id, time, settlement coin and order of a status request, and the client order id as request id |
| `EncoderRoundTrip.PlaceReadsBackIff` | src/roq/gate_futures/protocol/json/encoder.cpp:105-116 | a new order reads back as its document if and only if symbol and request id hold no quote, backslash or control character |
| `EncoderRoundTrip.AmendReadsBackIff` | src/roq/gate_futures/protocol/json/encoder.cpp:143-164 | an amendment reads back as its document if and only if its two ids need no escape |
| `EncoderRoundTrip.CancelReadsBackIff` | src/roq/gate_futures/protocol/json/encoder.cpp:181-200 | a cancellation reads back as its document if and only if its two ids need no escape |
| `EncoderRoundTrip.CancelAllReadsBackIff` | src/roq/gate_futures/protocol/json/encoder.cpp:211-230 | a cancellation of all orders reads back as its document if and only if symbol and request id need no escape |
| `EncoderRoundTrip.StatusReadsBackIff` | src/roq/gate_futures/gateway/drop_copy.cpp:949-989 | a status request reads back as its document if and only if its two ids and its settlement coin need no escape |
| `EncoderRoundTrip.RequestReadsBack` | src/roq/gate_futures/protocol/json/encoder.cpp:84-230 | one reader recovers from the text alone what is to be done, for all five kinds of requests |
| `EncoderRoundTrip.SameTextSameMeaning` | src/roq/gate_futures/protocol/json/encoder.cpp:84-230 | encoding is injective on everything that is sent, also across the five kinds |
| `EncoderRoundTrip.SameTextSameOrder` | src/roq/gate_futures/protocol/json/encoder.cpp:84-116 | new orders with the same text agree in every parameter, and with positive quantities in the side |
| `OrderReport.PublishedIff` | src/roq/gate_futures/gateway/drop_copy.cpp:755-760 | an update is published exactly for a report with a non-empty client order id and a status that makes sense |
| `OrderReport.OrderComesBack` | src/roq/gate_futures/gateway/drop_copy.cpp:755-835 | from the written text through the report to the update: symbol, side, quantity and id of an order of positive quantity come back, and remaining and traded add up to the quantity |
| `OrderReport.EchoExists` | src/roq/gate_futures/gateway/drop_copy.cpp:755-835 | every order for whole contracts can be reported back with any part of it still to trade, so the round trip speaks of all of them |
| `OrderReport.SideComesBackIff` | src/roq/gate_futures/gateway/drop_copy.cpp:762-762 | the side, which travels as the sign of the size, comes back if and only if the order buys or its quantity is not zero |
| `OrderReport.RejectsTheOrderAskedAbout` | src/roq/gate_futures/gateway/drop_copy.cpp:693-731 | a 404 that echoes the request id of the written text rejects exactly the order that was asked about |
| `OrderReport.AsksByClientIdIff` | src/roq/gate_futures/gateway/drop_copy.cpp:974-981 | the order is named by its client order id if and only if no id of the exchange is known |
| `OrderReport.ResponseNamesItsRequestIff` | src/roq/gate_futures/gateway/drop_copy.cpp:508-626 | a response names the kind of request it answers unless it rejects an amendment, which is reported as a cancellation |

## Left out

- Throttle.Throttle.OnMessageHeader: does not model reading the value out of the header text or overflow of 64-bit nanoseconds; the kind of a header is an input, its hash is not computed.
- Contracts.Rest.OnContractsAck: says nothing about the controller when a malformed symbol ends the process.
- OrderSessionProgress.CanBecomeReady: shows that a way to ready exists, not that the environment takes it; there is no fairness.
- Json.ReadsBackIff: the reader takes no white space, escapes, exponents, arrays or null; the encoders write none.
- Subscription.QueueIsWhatWasSubscribed: the queue as it is filled; the download that empties it is not modelled.
- OrderReport.SideComesBackIff: does not claim that an order of zero quantity can occur; the gateway does not look at the quantity.
- OrderReport.OrderComesBack: quantities are whole contracts and integers; rounding of floating-point numbers is not modelled.
- A REST response that is still on its way when the order stream reconnects commits the new request; whether the library allows that is not known, and nothing is claimed about the age of the data.
- Stream ids, metrics, logging, profiling, sockets, TLS and HTTP.
- The market-by-price sequencer with its snapshots and the depth queue; the candlesticks history download that empties the time series queue.
- The download of the REST stream itself (currencies and contracts states, with retry, skip and bump).
- Signing of requests, and the texts of login and subscribe messages.
- Order actions as events of the session, and the message ids that they and the session use up: no reply is matched by such an id.
- Balances, positions, trades and tickers: one record each, copied field by field.
- Configuration, flags, bridges, path tables and enumerations other than those an order report needs.
